/** Labels and names character by character: what normalising keeps, drops and joins, and which name is derived. */
module NameRules {
  import opened Names

  const LOWER_CASE := "abcdefghijklmnopqrstuvwxyz"
  const UPPER_CASE := "ABCDEFGHIJKLMNOPQRSTUVWXYZ"
  const DIGITS := "0123456789"

  lemma LetterExactly(c: char)
    ensures 'a' <= c <= 'z' <==> c in LOWER_CASE
  {
    if 'a' <= c <= 'z' {
      assert LOWER_CASE[c as int - 'a' as int] == c;
    }
  }

  lemma DigitExactly(c: char)
    ensures '0' <= c <= '9' <==> c in DIGITS
  {
    if '0' <= c <= '9' {
      assert DIGITS[c as int - '0' as int] == c;
    }
  }

  lemma AlphanumericExactly(c: char)
    ensures Alphanumeric(c) <==> c in LOWER_CASE || c in DIGITS
  {
    hide LOWER_CASE, DIGITS;
    LetterExactly(c);
    DigitExactly(c);
  }

  /** A name has 1 to 32 characters: letters and digits, and dashes and underscores but for the first. */
  lemma ValidNameExactly(s: string)
    ensures ValidName(s) <==>
              && 1 <= |s| <= 32
              && (s[0] in LOWER_CASE || s[0] in DIGITS)
              && (forall i :: 0 <= i < |s| ==> s[i] in LOWER_CASE || s[i] in DIGITS || s[i] == '-' || s[i] == '_')
  {
    forall i | 0 <= i < |s|
      ensures Alphanumeric(s[i]) <==> s[i] in LOWER_CASE || s[i] in DIGITS
    {
      AlphanumericExactly(s[i]);
    }
  }

  /** Capitals become small letters; of all other characters, only two turn into letters. */
  lemma LowerExactly(c: char)
    ensures forall i :: 0 <= i < 26 && c == UPPER_CASE[i] ==> Lower(c) == LOWER_CASE[i]
    ensures c !in UPPER_CASE ==> Lower(c) == if c == '\U{212A}' then 'k' else if c == '\U{0130}' then 'i' else c
  {
    if 'A' <= c <= 'Z' {
      var i := c as int - 'A' as int;
      assert UPPER_CASE[i] == c && LOWER_CASE[i] == Lower(c);
      assert forall j :: 0 <= j < 26 ==> UPPER_CASE[j] == ('A' as int + j) as char;
    }
  }

  lemma TrimLeftParts(s: string, cut: char -> bool) returns (front: string)
    ensures s == front + TrimLeft(s, cut) && forall c :: c in front ==> cut(c)
  {
    TrimLeftSuffix(s, cut);
    if s != "" && cut(s[0]) {
      var rest := TrimLeftParts(s[1..], cut);
      front := [s[0]] + rest;
    } else {
      front := "";
    }
  }

  lemma TrimRightParts(s: string, cut: char -> bool) returns (back: string)
    ensures s == TrimRight(s, cut) + back && forall c :: c in back ==> cut(c)
  {
    if s != "" && cut(s[|s| - 1]) {
      var rest := TrimRightParts(s[..|s| - 1], cut);
      back := rest + [s[|s| - 1]];
    } else {
      back := "";
    }
  }

  /** Trimming takes away space on both sides, all of it, and nothing else. */
  lemma TrimSpaceExactly(s: string) returns (front: string, back: string)
    ensures var t := TrimSpace(s);
            && s == front + t + back
            && (forall c :: c in front || c in back ==> IsSpace(c))
            && (t == "" || (!IsSpace(t[0]) && !IsSpace(t[|t| - 1])))
  {
    front := TrimLeftParts(s, IsSpace);
    back := TrimRightParts(TrimLeft(s, IsSpace), IsSpace);
    TrimLeftSuffix(s, IsSpace);
    TrimRightPrefix(TrimLeft(s, IsSpace), IsSpace);
  }

  /** The characters that a slug keeps. */
  predicate Kept(c: char) {
    c in LOWER_CASE || c in DIGITS || c == '_'
  }

  predicate AllKept(s: string) {
    forall i :: 0 <= i < |s| ==> Kept(s[i])
  }

  predicate NoneKept(s: string) {
    forall i :: 0 <= i < |s| ==> !Kept(s[i])
  }

  lemma KeptExactly(c: char)
    ensures Kept(c) <==> Alphanumeric(c) || c == '_'
  {
    AlphanumericExactly(c);
  }

  lemma {:induction false} SlugKeeps(a: string, word: string)
    requires AllKept(word)
    ensures Slug(a + word) == Slug(a) + word
  {
    hide Kept, Alphanumeric;
    if word == "" {
      assert a + word == a;
    } else {
      var n := |word| - 1;
      assert (a + word)[..|a + word| - 1] == a + word[..n];
      KeptExactly(word[n]);
      SlugKeeps(a, word[..n]);
    }
  }

  lemma {:induction false} SlugSkips(a: string, gap: string)
    requires NoneKept(gap) && gap != ""
    ensures Slug(a + gap) == if Slug(a) == "" || EndsInDash(Slug(a)) then Slug(a) else Slug(a) + "-"
  {
    hide Kept, Alphanumeric;
    var n := |gap| - 1;
    assert (a + gap)[..|a + gap| - 1] == a + gap[..n];
    KeptExactly(gap[n]);
    if n == 0 {
      assert a + gap[..n] == a;
    } else {
      SlugSkips(a, gap[..n]);
    }
  }

  lemma SlugOfNothing()
    ensures Slug("") == ""
  {
  }

  lemma LastOfWord(word: string)
    requires AllKept(word) && word != ""
    ensures word[|word| - 1] != '-'
  {
    KeptExactly(word[|word| - 1]);
  }

  /**
   A slug, word by word: what is in front of the first word goes, every word stays as it is,
   and whatever stands between two words - one character or many - becomes one dash.
   */
  lemma SlugWords(gap: string, word: string, a: string, next: string)
    requires NoneKept(gap) && gap != "" && AllKept(word) && word != "" && AllKept(next) && next != ""
    ensures Slug(gap + word) == word
    ensures Slug(a + word + gap + next) == Slug(a + word) + "-" + next
  {
    hide Slug, AllKept, NoneKept;
    assert "" + gap == gap;
    SlugOfNothing();
    SlugSkips("", gap);
    SlugKeeps(gap, word);
    SlugKeeps(a, word);
    LastOfWord(word);
    SlugSkips(a + word, gap);
    SlugKeeps(a + word + gap, next);
  }

  lemma SpaceExactly(c: char)
    ensures IsSpace(c) <==>
              c as int in {9, 10, 11, 12, 13, 32, 133, 160, 5760, 8192, 8193, 8194, 8195, 8196, 8197, 8198, 8199, 8200,
                           8201, 8202, 8232, 8233, 8239, 8287, 12288}
  {
  }

  /** Letters of either case and digits. */
  predicate Word(s: string) {
    forall i :: 0 <= i < |s| ==> Alphanumeric(Lower(s[i]))
  }

  lemma WordsLowered(a: string, gap: string, b: string)
    ensures ToLower(a + gap + b) == ToLower(a) + ToLower(gap) + ToLower(b)
  {
  }

  lemma SpaceIsNoLetter(c: char)
    requires Alphanumeric(Lower(c))
    ensures !IsSpace(c)
  {
  }

  lemma KeptWord(s: string)
    requires Word(s)
    ensures AllKept(ToLower(s))
  {
    forall i | 0 <= i < |s|
      ensures Kept(ToLower(s)[i])
    {
      KeptExactly(Lower(s[i]));
    }
  }

  /** A slug that starts and ends with a letter or digit and is short enough is the normal form. */
  lemma NormalizedSlug(s: string)
    requires s != "" && !IsSpace(s[0]) && !IsSpace(s[|s| - 1])
    requires var g := Slug(ToLower(s)); g != "" && |g| <= 32 && Alphanumeric(g[0]) && Alphanumeric(g[|g| - 1])
    ensures Normalized(s) == Slug(ToLower(s))
  {
    assert TrimLeft(s, IsSpace) == s && TrimRight(s, IsSpace) == s;
  }

  /** Two words and whatever is between them: in small letters, joined by one dash. */
  lemma NormalizedWords(a: string, gap: string, b: string)
    requires Word(a) && a != "" && Word(b) && b != "" && NoneKept(ToLower(gap)) && gap != "" && |a| + 1 + |b| <= 32
    ensures Normalized(a + gap + b) == ToLower(a) + "-" + ToLower(b)
  {
    var s := a + gap + b;
    var x, y, z := ToLower(a), ToLower(gap), ToLower(b);
    WordsLowered(a, gap, b);
    KeptWord(a);
    KeptWord(b);
    assert "" + x == x && "" + x + y + z == x + y + z;
    SlugWords(y, x, "", z);
    SlugOfNothing();
    SlugKeeps("", x);
    SpaceIsNoLetter(a[0]);
    SpaceIsNoLetter(b[|b| - 1]);
    assert s[0] == a[0] && s[|s| - 1] == b[|b| - 1];
    assert Alphanumeric(x[0]) && Alphanumeric(z[|z| - 1]);
    hide Slug, AllKept, NoneKept, Kept, IsSpace, Alphanumeric, Lower;
    NormalizedSlug(s);
  }

  // ---- Free names ---------------------------------------------------------------

  lemma {:induction false} FirstFreeExactly(base: string, names: set<string>, i: nat, free: nat) returns (j: nat)
    requires ValidName(base) && i <= free < LAST_CANDIDATE && Candidate(base, free) !in names
    ensures i <= j <= free && FirstFree(base, names, i) == Candidate(base, j)
    ensures forall h :: i <= h < j ==> Candidate(base, h) in names
    decreases free - i
  {
    CandidateIsName(base, i);
    if Candidate(base, i) in names {
      j := FirstFreeExactly(base, names, i + 1, free);
    } else {
      j := i;
    }
  }

  /**
   Which name that is: the normalised label, or "key" for a label without letters and digits; and
   if that is in use, the first free one among the same with -1, -2, and so on behind it - behind
   "key" where that would be too long.
   */
  lemma DerivedNameExactly(hint: string, names: set<string>)
    requires |names| < 9999
    ensures var base := if Normalized(hint) == "" then "key" else Normalized(hint);
            && (base !in names ==> DerivedName(hint, names) == base)
            && (base in names ==>
                  exists i :: 1 <= i < 10000 && DerivedName(hint, names) == Candidate(base, i)
                    && forall h :: 1 <= h < i ==> Candidate(base, h) in names)
  {
    NormalizedIsName(hint);
    var base := BaseName(hint);
    if base in names {
      var n := |names| + 1;
      TriedSize(base, n);
      if Tried(base, n) <= names {
        SubsetSize(Tried(base, n), names);
        assert false;
      }
      var c :| c in Tried(base, n) && c !in names;
      TriedMembers(base, n, c);
      var free :| 1 <= free <= n && c == Candidate(base, free);
      var _ := FirstFreeExactly(base, names, 1, free);
    }
  }

  /** The value of a row of digits. */
  function Value(s: string): int {
    if s == "" then 0 else Value(s[..|s| - 1]) * 10 + (s[|s| - 1] as int - '0' as int)
  }

  /** A numbered name carries the number in decimal, without leading zeros. */
  lemma {:induction false} DecimalExactly(n: nat)
    ensures Value(Decimal(n)) == n
    ensures n > 0 ==> Decimal(n)[0] != '0'
  {
    if n >= 10 {
      DecimalExactly(n / 10);
      assert Decimal(n)[..|Decimal(n)| - 1] == Decimal(n / 10);
    } else {
      assert Value(Decimal(n)[..0]) == 0;
    }
  }

  lemma CandidateExactly(base: string, i: nat)
    ensures Candidate(base, i) == if |base| + 1 + |Decimal(i)| <= 32 then base + "-" + Decimal(i) else "key-" + Decimal(i)
  {
  }
}
