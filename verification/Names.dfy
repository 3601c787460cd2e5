/** Key names: what a valid name is, how labels are normalised, and how free names are found. */
module Names {

  const MAX_NAME_LEN := 32

  predicate Alphanumeric(c: char) {
    'a' <= c <= 'z' || '0' <= c <= '9'
  }

  predicate NameChar(c: char) {
    Alphanumeric(c) || c == '_' || c == '-'
  }

  /** The pattern [a-z0-9][a-z0-9_-]{0,31}. */
  predicate ValidName(s: string) {
    && 0 < |s| <= MAX_NAME_LEN
    && Alphanumeric(s[0])
    && forall i :: 0 <= i < |s| ==> NameChar(s[i])
  }

  /** White space as the Unicode property has it. */
  predicate IsSpace(c: char) {
    || '\U{0009}' <= c <= '\U{000D}' || c == ' '
    || c in {'\U{0085}', '\U{00A0}', '\U{1680}', '\U{2028}', '\U{2029}', '\U{202F}', '\U{205F}', '\U{3000}'}
    || '\U{2000}' <= c <= '\U{200A}'
  }

  /** Lower case, as far as it can yield a name character: A-Z, the Kelvin sign and dotted I. */
  function Lower(c: char): char {
    if 'A' <= c <= 'Z' then (c as int + 32) as char
    else if c == '\U{212A}' then 'k'
    else if c == '\U{0130}' then 'i'
    else c
  }

  function ToLower(s: string): string {
    seq(|s|, i requires 0 <= i < |s| => Lower(s[i]))
  }

  function TrimLeft(s: string, cut: char -> bool): string {
    if s != "" && cut(s[0]) then TrimLeft(s[1..], cut) else s
  }

  function TrimRight(s: string, cut: char -> bool): string {
    if s != "" && cut(s[|s| - 1]) then TrimRight(s[..|s| - 1], cut) else s
  }

  function TrimSpace(s: string): string {
    TrimRight(TrimLeft(s, IsSpace), IsSpace)
  }

  predicate Trailing(c: char) {
    c == '-' || c == '_'
  }

  predicate NotAlphanumeric(c: char) {
    !Alphanumeric(c)
  }

  predicate EndsInDash(s: string) {
    s != "" && s[|s| - 1] == '-'
  }

  /** Keep letters, digits and underscores; every other run becomes one dash, none in front. */
  function Slug(s: string): string {
    if s == "" then ""
    else
      var b, c := Slug(s[..|s| - 1]), s[|s| - 1];
      if Alphanumeric(c) || c == '_' then b + [c]
      else if b != "" && !EndsInDash(b) then b + "-"
      else b
  }

  function Truncate(s: string): string {
    if |s| > MAX_NAME_LEN then s[..MAX_NAME_LEN] else s
  }

  /** The trimmed text before it is cut to length. */
  function Untruncated(s: string): string {
    TrimRight(Slug(ToLower(TrimSpace(s))), Trailing)
  }

  function Normalized(s: string): string {
    TrimLeft(Truncate(Untruncated(s)), NotAlphanumeric)
  }

  method Normalize(text: string) returns (out: string)
    ensures out == Normalized(text)
  {
    var s := ToLower(TrimSpace(text));
    var b := "";
    var lastDash := false;
    for i := 0 to |s|
      invariant b == Slug(s[..i])
      invariant lastDash == EndsInDash(b)
    {
      var c := s[i];
      assert s[..i + 1][..i] == s[..i];
      if Alphanumeric(c) || c == '_' {
        b := b + [c];
        lastDash := false;
      } else {
        if !lastDash && |b| > 0 {
          b := b + "-";
          lastDash := true;
        }
      }
    }
    assert s[..|s|] == s;
    out := TrimRight(b, Trailing);
    if |out| > MAX_NAME_LEN {
      out := out[..MAX_NAME_LEN];
    }
    while |out| > 0 && !Alphanumeric(out[0])
      invariant TrimLeft(out, NotAlphanumeric) == Normalized(text)
    {
      out := out[1..];
    }
  }

  /** Only name characters, and never two dashes in a row. */
  predicate Clean(s: string) {
    && (forall i :: 0 <= i < |s| ==> NameChar(s[i]))
    && (forall i :: 0 <= i < |s| - 1 ==> !(s[i] == '-' && s[i + 1] == '-'))
  }

  lemma {:induction false} SlugIsClean(s: string)
    ensures Clean(Slug(s))
  {
    if s != "" {
      SlugIsClean(s[..|s| - 1]);
    }
  }

  lemma {:induction false} TrimRightPrefix(s: string, cut: char -> bool)
    ensures TrimRight(s, cut) <= s
    ensures TrimRight(s, cut) == "" || !cut(TrimRight(s, cut)[|TrimRight(s, cut)| - 1])
  {
    if s != "" && cut(s[|s| - 1]) {
      TrimRightPrefix(s[..|s| - 1], cut);
    }
  }

  lemma {:induction false} TrimLeftSuffix(s: string, cut: char -> bool)
    ensures var t := TrimLeft(s, cut); |t| <= |s| && t == s[|s| - |t|..] && (t == "" || !cut(t[0]))
  {
    if s != "" && cut(s[0]) {
      TrimLeftSuffix(s[1..], cut);
    }
  }

  /** A normalised label is empty or a valid name without doubled dashes. */
  lemma NormalizedIsName(s: string)
    ensures Normalized(s) == "" || ValidName(Normalized(s))
    ensures Clean(Normalized(s))
  {
    var b := Slug(ToLower(TrimSpace(s)));
    SlugIsClean(ToLower(TrimSpace(s)));
    TrimRightPrefix(b, Trailing);
    var t := Truncate(Untruncated(s));
    assert t <= b;
    TrimLeftSuffix(t, NotAlphanumeric);
    var n := Normalized(s);
    assert forall i :: 0 <= i < |n| ==> n[i] == b[i + (|t| - |n|)];
  }

  lemma {:induction false} SlugOfClean(s: string)
    requires Clean(s) && (s != "" ==> s[0] != '-')
    ensures Slug(s) == s
  {
    if s != "" {
      SlugOfClean(s[..|s| - 1]);
      if |s| > 1 {
        assert s[|s| - 2] == s[..|s| - 1][|s| - 2];
      }
    }
  }

  /** Normalising again changes a normalised name only if truncation left a dash or underscore last. */
  lemma NormalizeTwice(s: string)
    ensures var n := Normalized(s);
            Normalized(n) == n <==> n == "" || !Trailing(n[|n| - 1])
  {
    var n := Normalized(s);
    NormalizedIsName(s);
    if n == "" {
      assert ToLower("") == "";
    } else {
      assert TrimLeft(n, IsSpace) == n;
      assert TrimSpace(n) == n;
      assert ToLower(n) == n;
      SlugOfClean(n);
      if Trailing(n[|n| - 1]) {
        TrimRightPrefix(n[..|n| - 1], Trailing);
        assert |TrimRight(n, Trailing)| < |n|;
        TrimLeftSuffix(Truncate(TrimRight(n, Trailing)), NotAlphanumeric);
      } else {
        assert TrimRight(n, Trailing) == n;
      }
    }
  }

  /** In particular it is idempotent on every input it does not truncate. */
  lemma NormalizeIdempotent(s: string)
    requires |Untruncated(s)| <= MAX_NAME_LEN
    ensures Normalized(Normalized(s)) == Normalized(s)
  {
    TrimRightPrefix(Slug(ToLower(TrimSpace(s))), Trailing);
    TrimLeftSuffix(Untruncated(s), NotAlphanumeric);
    NormalizeTwice(s);
  }

  lemma {:induction false} TrimLeftAll(s: string, cut: char -> bool)
    ensures TrimLeft(s, cut) == "" <==> forall i :: 0 <= i < |s| ==> cut(s[i])
  {
    if s != "" {
      TrimLeftAll(s[1..], cut);
      assert forall i :: 1 <= i < |s| ==> s[i] == s[1..][i - 1];
    }
  }

  /**
   Exactly when normalising is idempotent: unless the trimmed text is cut right behind a dash
   or underscore while some letter or digit is kept.
   */
  lemma NormalizeIdempotentExactly(s: string)
    ensures var u := Untruncated(s);
            Normalized(Normalized(s)) == Normalized(s) <==>
              || |u| <= MAX_NAME_LEN
              || !Trailing(u[MAX_NAME_LEN - 1])
              || forall i :: 0 <= i < MAX_NAME_LEN ==> !Alphanumeric(u[i])
  {
    var u := Untruncated(s);
    if |u| <= MAX_NAME_LEN {
      NormalizeIdempotent(s);
    } else {
      NormalizeTwice(s);
      TrimLeftAll(Truncate(u), NotAlphanumeric);
      TrimLeftSuffix(Truncate(u), NotAlphanumeric);
    }
  }

  /** A label for which it is not: thirty-one letters, a dash, and one letter more. */
  lemma NormalizedTwiceDiffers()
    ensures var a := seq(31, _ => 'a');
            Normalized(a + "-b") == a + "-" && Normalized(a + "-") == a
  {
    var a := seq(31, _ => 'a');
    Settled(a + "-b");
    Settled(a);
    assert TrimSpace(a + "-") == a + "-";
    assert ToLower(a + "-") == a + "-";
    SlugOfClean(a + "-");
    assert (a + "-")[..31] == a;
    assert TrimRight(a + "-", Trailing) == TrimRight(a, Trailing);
  }

  /** Text that starts and ends with a letter or digit and is clean is only cut to length. */
  lemma Settled(s: string)
    requires Clean(s) && s != "" && Alphanumeric(s[0]) && Alphanumeric(s[|s| - 1])
    ensures Untruncated(s) == s && Normalized(s) == Truncate(s)
  {
    assert TrimLeft(s, IsSpace) == s && TrimRight(s, IsSpace) == s;
    assert ToLower(s) == s by {
      assert forall i :: 0 <= i < |s| ==> NameChar(s[i]) && Lower(s[i]) == s[i];
    }
    SlugOfClean(s);
    assert TrimRight(s, Trailing) == s;
    assert NotAlphanumeric(s[0]) == false;
  }

  // ---- Free names ---------------------------------------------------------------

  function Digit(d: int): char
    requires 0 <= d < 10
  {
    ('0' as int + d) as char
  }

  function Decimal(n: nat): (s: string)
    ensures |s| > 0
    ensures forall i :: 0 <= i < |s| ==> '0' <= s[i] <= '9'
  {
    if n < 10 then [Digit(n)] else Decimal(n / 10) + [Digit(n % 10)]
  }

  lemma {:induction false} DecimalInjective(a: nat, b: nat)
    requires Decimal(a) == Decimal(b)
    ensures a == b
  {
    var s, t := Decimal(a), Decimal(b);
    assert s[|s| - 1] == Digit(a % 10) && t[|t| - 1] == Digit(b % 10);
    assert a < 10 <==> |s| == 1;
    assert b < 10 <==> |t| == 1;
    if a >= 10 {
      assert s[..|s| - 1] == Decimal(a / 10) && t[..|t| - 1] == Decimal(b / 10);
      DecimalInjective(a / 10, b / 10);
    }
  }

  lemma DecimalLength(n: nat)
    requires n < 10000
    ensures |Decimal(n)| <= 4
  {
    assert n / 10 < 1000 && n / 10 / 10 < 100 && n / 10 / 10 / 10 < 10;
    assert |Decimal(n / 10 / 10 / 10)| == 1;
    assert |Decimal(n / 10 / 10)| <= 2;
    assert |Decimal(n / 10)| <= 3;
  }

  const LAST_CANDIDATE := 10000

  /** base-i, or key-i where that would be too long. */
  function Candidate(base: string, i: nat): string {
    var c := base + "-" + Decimal(i);
    if |c| > MAX_NAME_LEN then "key-" + Decimal(i) else c
  }

  function FirstFree(base: string, names: set<string>, i: nat): string
    decreases LAST_CANDIDATE - i
  {
    if i >= LAST_CANDIDATE then "key"
    else if Candidate(base, i) !in names && ValidName(Candidate(base, i)) then Candidate(base, i)
    else FirstFree(base, names, i + 1)
  }

  function BaseName(hint: string): string {
    if Normalized(hint) == "" then "key" else Normalized(hint)
  }

  function DerivedName(hint: string, names: set<string>): string {
    var base := BaseName(hint);
    if base !in names && ValidName(base) then base else FirstFree(base, names, 1)
  }

  method DeriveName(hint: string, names: set<string>) returns (name: string)
    ensures name == DerivedName(hint, names)
  {
    var base := Normalize(hint);
    if base == "" {
      base := "key";
    }
    if base !in names && ValidName(base) {
      return base;
    }
    for i := 1 to LAST_CANDIDATE
      invariant FirstFree(base, names, i) == FirstFree(base, names, 1)
    {
      var candidate := base + "-" + Decimal(i);
      if |candidate| > MAX_NAME_LEN {
        candidate := "key-" + Decimal(i);
      }
      if candidate !in names && ValidName(candidate) {
        return candidate;
      }
    }
    return "key";
  }

  lemma CandidateIsName(base: string, i: nat)
    requires ValidName(base) && i < LAST_CANDIDATE
    ensures ValidName(Candidate(base, i))
  {
    DecimalLength(i);
  }

  /** A number after the last dash determines both halves. */
  lemma SplitAtLastDash(x: string, a: nat, y: string, b: nat)
    requires x + "-" + Decimal(a) == y + "-" + Decimal(b)
    ensures x == y && a == b
  {
    var s, t := x + "-" + Decimal(a), y + "-" + Decimal(b);
    assert s[|x|] == '-' && t[|y|] == '-';
    assert forall k :: |x| < k < |s| ==> s[k] == Decimal(a)[k - |x| - 1];
    assert forall k :: |y| < k < |t| ==> t[k] == Decimal(b)[k - |y| - 1];
    assert |x| == |y|;
    assert s[..|x|] == x && t[..|y|] == y;
    assert s[|x| + 1..] == Decimal(a) && t[|y| + 1..] == Decimal(b);
    DecimalInjective(a, b);
  }

  /** No two candidates coincide, whichever of the two forms they take. */
  lemma CandidatesDistinct(base: string, i: nat, j: nat)
    requires i < LAST_CANDIDATE && j < LAST_CANDIDATE
    requires Candidate(base, i) == Candidate(base, j)
    ensures i == j
  {
    DecimalLength(i);
    DecimalLength(j);
    assert "key-" == "key" + "-";
    var x := if |base + "-" + Decimal(i)| > MAX_NAME_LEN then "key" else base;
    var y := if |base + "-" + Decimal(j)| > MAX_NAME_LEN then "key" else base;
    assert Candidate(base, i) == x + "-" + Decimal(i);
    assert Candidate(base, j) == y + "-" + Decimal(j);
    SplitAtLastDash(x, i, y, j);
  }

  /** The first n candidates. */
  function Tried(base: string, n: nat): set<string> {
    if n == 0 then {} else Tried(base, n - 1) + {Candidate(base, n)}
  }

  lemma {:induction false} TriedMembers(base: string, n: nat, c: string)
    ensures c in Tried(base, n) <==> exists i :: 1 <= i <= n && c == Candidate(base, i)
  {
    if n > 0 {
      TriedMembers(base, n - 1, c);
    }
  }

  /** The first n candidates are n different names. */
  lemma {:induction false} TriedSize(base: string, n: nat)
    requires n < LAST_CANDIDATE
    ensures |Tried(base, n)| == n
  {
    if n > 0 {
      TriedSize(base, n - 1);
      var c := Candidate(base, n);
      TriedMembers(base, n - 1, c);
      forall i | 1 <= i <= n - 1
        ensures c != Candidate(base, i)
      {
        if c == Candidate(base, i) {
          CandidatesDistinct(base, n, i);
        }
      }
      assert c !in Tried(base, n - 1);
    }
  }

  lemma {:induction false} SubsetSize(a: set<string>, b: set<string>)
    requires a <= b
    ensures |a| <= |b|
  {
    if a != {} {
      var x :| x in a;
      SubsetSize(a - {x}, b - {x});
    }
  }

  lemma {:induction false} FirstFreeIsFree(base: string, names: set<string>, i: nat, free: nat)
    requires i <= free < LAST_CANDIDATE && Candidate(base, free) !in names && ValidName(Candidate(base, free))
    ensures FirstFree(base, names, i) !in names && ValidName(FirstFree(base, names, i))
    decreases free - i
  {
    if i < free {
      FirstFreeIsFree(base, names, i + 1, free);
    }
  }

  /**
   With fewer than 9999 names in use, a derived name is valid and not taken: by pigeonhole
   some candidate is free, so the last resort is never reached.
   */
  lemma DerivedNameIsFree(hint: string, names: set<string>)
    requires |names| < 9999
    ensures ValidName(DerivedName(hint, names)) && DerivedName(hint, names) !in names
  {
    NormalizedIsName(hint);
    var base := BaseName(hint);
    var n := |names| + 1;
    TriedSize(base, n);
    if Tried(base, n) <= names {
      SubsetSize(Tried(base, n), names);
      assert false;
    }
    var c :| c in Tried(base, n) && c !in names;
    TriedMembers(base, n, c);
    var i :| 1 <= i <= n && c == Candidate(base, i);
    CandidateIsName(base, i);
    FirstFreeIsFree(base, names, 1, i);
  }
}
