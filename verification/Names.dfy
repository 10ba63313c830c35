/**
 Generated worker MachineSet names: sanitising a failure domain name into an RFC 1123 label
 (section 2.1 of RFC 1123), truncating it, and the families {base, base-2, base-3, ...} that
 later steps use to attribute a MachineSet to one mapping.
 */
module Names {
  import opened Text

  const MAX_NAME_LEN := 63
  const SUFFIX_RESERVE := 4
  const MAX_BASE_LEN := MAX_NAME_LEN - SUFFIX_RESERVE

  // ----- Sanitising -----

  /** Lower-casing, including the two code points outside ASCII whose lower case is an ASCII letter. */
  function Lower(c: char): char {
    if 'A' <= c <= 'Z' then (c as int - 'A' as int + 'a' as int) as char
    else if c == '\U{212A}' then 'k'
    else if c == '\U{130}' then 'i'
    else c
  }

  function LabelChar(c: char): char {
    var l := Lower(c);
    if IsAlphanumeric(l) then l else '-'
  }

  function LabelChars(s: string): (r: string)
    ensures |r| == |s|
    ensures forall i | 0 <= i < |s| :: r[i] == LabelChar(s[i])
  {
    if s == [] then [] else [LabelChar(s[0])] + LabelChars(s[1..])
  }

  predicate LabelAlphabet(s: string) {
    forall i | 0 <= i < |s| :: IsAlphanumeric(s[i]) || s[i] == '-'
  }

  predicate HasDoubleHyphen(s: string) {
    exists i | 0 <= i < |s| - 1 :: s[i] == '-' && s[i + 1] == '-'
  }

  /** One left-to-right, non-overlapping replacement pass of "--" by "-". */
  function ReplacePairs(s: string): (r: string)
    ensures |r| <= |s|
  {
    if |s| < 2 then s
    else if s[0] == '-' && s[1] == '-' then ['-'] + ReplacePairs(s[2..])
    else [s[0]] + ReplacePairs(s[1..])
  }

  /** Each maximal run of hyphens becomes one hyphen: the reference the pass loop is proved against. */
  function CollapseRuns(s: string): (r: string)
    ensures |r| <= |s|
    ensures s != [] ==> r != [] && r[0] == s[0]
  {
    if |s| < 2 then s
    else if s[0] == '-' && s[1] == '-' then CollapseRuns(s[1..])
    else [s[0]] + CollapseRuns(s[1..])
  }

  lemma {:induction false} PassPreservesCollapse(s: string)
    ensures CollapseRuns(ReplacePairs(s)) == CollapseRuns(s)
    ensures s != [] ==> ReplacePairs(s) != [] && ReplacePairs(s)[0] == s[0]
    decreases |s|
  {
    if |s| >= 2 {
      if s[0] == '-' && s[1] == '-' {
        PassPreservesCollapse(s[2..]);
        var rest := ReplacePairs(s[2..]);
        var r := ['-'] + rest;
        assert ReplacePairs(s) == r;
        assert r[1..] == rest;
        assert s[1..][1..] == s[2..];
        if |s| == 2 {
          assert r == "-";
        } else if s[2] == '-' {
          assert CollapseRuns(r) == CollapseRuns(rest);
          assert CollapseRuns(s[1..]) == CollapseRuns(s[2..]);
        } else {
          assert CollapseRuns(r) == ['-'] + CollapseRuns(rest);
        }
      } else {
        PassPreservesCollapse(s[1..]);
        var rest := ReplacePairs(s[1..]);
        var r := [s[0]] + rest;
        assert ReplacePairs(s) == r && r[1..] == rest;
        assert CollapseRuns(r) == [s[0]] + CollapseRuns(rest);
      }
    }
  }

  lemma {:induction false} PassShrinks(s: string)
    requires HasDoubleHyphen(s)
    ensures |ReplacePairs(s)| < |s|
    decreases |s|
  {
    if !(s[0] == '-' && s[1] == '-') {
      var i :| 0 <= i < |s| - 1 && s[i] == '-' && s[i + 1] == '-';
      assert s[1..][i - 1] == '-' && s[1..][i] == '-';
      PassShrinks(s[1..]);
    }
  }

  lemma {:induction false} CollapseFixed(s: string)
    requires !HasDoubleHyphen(s)
    ensures CollapseRuns(s) == s
    decreases |s|
  {
    if |s| >= 2 {
      assert !(s[0] == '-' && s[1] == '-');
      forall i | 0 <= i < |s[1..]| - 1 ensures !(s[1..][i] == '-' && s[1..][i + 1] == '-') {
        assert s[1..][i] == s[i + 1] && s[1..][i + 1] == s[i + 2];
      }
      CollapseFixed(s[1..]);
    }
  }

  lemma {:induction false} CollapseHasNoDouble(s: string)
    ensures !HasDoubleHyphen(CollapseRuns(s))
    ensures LabelAlphabet(s) ==> LabelAlphabet(CollapseRuns(s))
    ensures Letters(CollapseRuns(s)) == Letters(s)
    decreases |s|
  {
    if |s| >= 2 {
      CollapseHasNoDouble(s[1..]);
      var rest := CollapseRuns(s[1..]);
      assert LabelAlphabet(s) ==> LabelAlphabet(s[1..]);
      if !(s[0] == '-' && s[1] == '-') {
        var r := [s[0]] + rest;
        assert r[1..] == rest;
        forall i | 0 <= i < |r| - 1 ensures !(r[i] == '-' && r[i + 1] == '-') {
          if i > 0 {
            assert r[i] == rest[i - 1] && r[i + 1] == rest[i];
          }
        }
      }
    }
  }

  /** The repeated replacement loop of the sanitiser terminates and computes CollapseRuns. */
  method CollapseHyphens(s: string) returns (r: string)
    ensures r == CollapseRuns(s)
  {
    r := s;
    while HasDoubleHyphen(r)
      invariant CollapseRuns(r) == CollapseRuns(s)
      decreases |r|
    {
      PassPreservesCollapse(r);
      PassShrinks(r);
      r := ReplacePairs(r);
    }
    CollapseFixed(r);
  }

  function TrimLeft(s: string): (r: string)
    ensures |r| <= |s| && r == s[|s| - |r|..]
    ensures r != [] ==> r[0] != '-'
  {
    if s != [] && s[0] == '-' then TrimLeft(s[1..]) else s
  }

  function TrimRight(s: string): (r: string)
    ensures |r| <= |s| && r == s[..|r|]
    ensures r != [] ==> r[|r| - 1] != '-'
    ensures forall i | |r| <= i < |s| :: s[i] == '-'
  {
    if s != [] && s[|s| - 1] == '-' then TrimRight(s[..|s| - 1]) else s
  }

  function Trim(s: string): string {
    TrimRight(TrimLeft(s))
  }

  function Sanitize(name: string): string {
    Trim(CollapseRuns(LabelChars(name)))
  }

  /** A sanitised label: label alphabet, no hyphen at either end, no two hyphens in a row. */
  predicate IsLabel(s: string) {
    && LabelAlphabet(s)
    && !HasDoubleHyphen(s)
    && (s != [] ==> s[0] != '-' && s[|s| - 1] != '-')
  }

  /** The characters that sanitising keeps: everything but hyphens. */
  function Letters(s: string): string {
    if s == [] then []
    else if s[0] == '-' then Letters(s[1..])
    else [s[0]] + Letters(s[1..])
  }

  lemma {:induction false} LettersConcat(s: string, t: string)
    ensures Letters(s + t) == Letters(s) + Letters(t)
    decreases |s|
  {
    if s == [] {
      assert s + t == t;
    } else {
      LettersConcat(s[1..], t);
      assert (s + t)[1..] == s[1..] + t;
    }
  }

  lemma {:induction false} LettersOfHyphens(s: string)
    requires forall i | 0 <= i < |s| :: s[i] == '-'
    ensures Letters(s) == []
  {
    if s != [] {
      LettersOfHyphens(s[1..]);
    }
  }

  lemma {:induction false} TrimLeftKeepsLetters(s: string)
    ensures Letters(TrimLeft(s)) == Letters(s)
  {
    if s != [] && s[0] == '-' {
      TrimLeftKeepsLetters(s[1..]);
    }
  }

  lemma {:induction false} TrimRightKeepsLetters(s: string)
    ensures Letters(TrimRight(s)) == Letters(s)
  {
    if s != [] && s[|s| - 1] == '-' {
      var front := s[..|s| - 1];
      TrimRightKeepsLetters(front);
      assert s == front + "-";
      LettersConcat(front, "-");
      LettersOfHyphens("-");
    }
  }

  lemma {:induction false} TrimKeepsNoDouble(s: string)
    requires !HasDoubleHyphen(s) && LabelAlphabet(s)
    ensures IsLabel(Trim(s))
  {
    hide TrimLeft, TrimRight;
    var t := TrimLeft(s);
    var r := TrimRight(t);
    var k := |s| - |t|;
    forall i | 0 <= i < |r| ensures r[i] == s[i + k] {
      assert r[i] == t[i] == s[i + k];
    }
    hide Trim;
    assert Trim(s) == r by { TrimIsBoth(s); }
    forall i | 0 <= i < |r| - 1 ensures !(r[i] == '-' && r[i + 1] == '-') {
      assert r[i] == s[i + k] && r[i + 1] == s[i + k + 1];
    }
    assert r != [] ==> r[0] == t[0];
  }

  lemma TrimIsBoth(s: string)
    ensures Trim(s) == TrimRight(TrimLeft(s))
  {
  }

  /** Sanitising yields a label and keeps exactly the lower-cased alphanumeric characters, in order. */
  lemma {:induction false} SanitizeIsLabel(name: string)
    ensures IsLabel(Sanitize(name))
    ensures Letters(Sanitize(name)) == Letters(LabelChars(name))
  {
    var c := CollapseRuns(LabelChars(name));
    CollapseHasNoDouble(LabelChars(name));
    TrimKeepsNoDouble(c);
    TrimLeftKeepsLetters(c);
    TrimRightKeepsLetters(TrimLeft(c));
  }

  /** What becomes of one character: letters in lower case and digits survive, everything else is dropped. */
  function Survivor(c: char): string {
    if 'a' <= c <= 'z' || '0' <= c <= '9' then [c]
    else if 'A' <= c <= 'Z' then [(c as int + 32) as char]
    else if c == '\U{212A}' then "k"
    else if c == '\U{130}' then "i"
    else ""
  }

  function Survivors(name: string): string {
    if name == "" then "" else Survivor(name[0]) + Survivors(name[1..])
  }

  lemma OneSurvives(c: char)
    ensures Survivor(c) == if LabelChar(c) == '-' then "" else [LabelChar(c)]
  {
  }

  lemma {:induction false} LabelKeepsSurvivors(name: string)
    ensures Letters(LabelChars(name)) == Survivors(name)
  {
    if name != "" {
      OneSurvives(name[0]);
      LabelKeepsSurvivors(name[1..]);
      assert LabelChars(name)[1..] == LabelChars(name[1..]);
    }
  }

  /** Taken without its hyphens, a sanitised name is the letters, in lower case, and digits of the name, in order. */
  lemma SanitizeKeepsSurvivors(name: string)
    ensures Letters(Sanitize(name)) == Survivors(name)
  {
    SanitizeIsLabel(name);
    LabelKeepsSurvivors(name);
  }

  // Where the hyphens go.

  function Slug(s: string): string {
    Trim(CollapseRuns(s))
  }

  function Dashed(a: string, b: string): string {
    if a == "" then b else if b == "" then a else a + "-" + b
  }

  lemma {:induction false} TrimRightPrepend(c: char, w: string)
    requires c != '-' || TrimRight(w) != ""
    ensures TrimRight([c] + w) == [c] + TrimRight(w)
  {
    var s := [c] + w;
    if w != "" && w[|w| - 1] == '-' {
      TrimRightPrepend(c, w[..|w| - 1]);
      assert s[..|s| - 1] == [c] + w[..|w| - 1];
    }
  }

  lemma SlugLead(y: string)
    ensures Slug("-" + y) == Slug(y)
  {
    var s := "-" + y;
    assert s[1..] == y;
    if y == "" || y[0] != '-' {
      assert CollapseRuns(s) == "-" + CollapseRuns(y);
      assert ("-" + CollapseRuns(y))[1..] == CollapseRuns(y);
    }
  }

  lemma CollapseStep(h: char, z: string)
    requires h != '-'
    ensures CollapseRuns([h] + z) == [h] + CollapseRuns(z)
  {
    assert ([h] + z)[1..] == z;
  }

  lemma TrimHead(h: char, c: string)
    requires h != '-'
    ensures Trim([h] + c) == [h] + TrimRight(c)
  {
    hide TrimRight;
    assert TrimLeft([h] + c) == [h] + c;
    TrimRightPrepend(h, c);
  }

  /** What is left without trimming the front. */
  lemma RightPart(z: string)
    ensures TrimRight(CollapseRuns(z)) == (if z != "" && z[0] == '-' && Slug(z) != "" then "-" else "") + Slug(z)
  {
    hide CollapseRuns, TrimRight, Trim, HasDoubleHyphen, Letters, LabelAlphabet;
    var c := CollapseRuns(z);
    if z == "" || z[0] != '-' {
      NoLead(c);
    } else {
      CollapseHasNoDouble(z);
      var rest := c[1..];
      assert c == ['-'] + rest;
      LeadTrimmed(c, rest);
      RightLead(rest);
    }
  }

  lemma NoLead(c: string)
    requires c == "" || c[0] != '-'
    ensures Trim(c) == TrimRight(c)
  {
  }

  lemma LeadTrimmed(c: string, rest: string)
    requires c == ['-'] + rest && !HasDoubleHyphen(c)
    ensures Trim(c) == TrimRight(rest)
    ensures rest != "" ==> rest[0] != '-'
  {
    DoubleInFront(rest);
    assert c[1..] == rest && TrimLeft(rest) == rest;
    assert TrimLeft(c) == TrimLeft(c[1..]);
  }

  lemma DoubleInFront(rest: string)
    ensures rest != "" && rest[0] == '-' ==> HasDoubleHyphen(['-'] + rest)
  {
    if rest != "" && rest[0] == '-' {
      var c := ['-'] + rest;
      assert c[0] == '-' && c[0 + 1] == '-';
    }
  }

  lemma RightLead(rest: string)
    requires rest == "" || rest[0] != '-'
    ensures TrimRight(['-'] + rest) == (if TrimRight(rest) != "" then "-" else "") + TrimRight(rest)
  {
    if rest != "" {
      assert rest == [rest[0]] + rest[1..];
      TrimRightPrepend(rest[0], rest[1..]);
      TrimRightPrepend('-', rest);
    } else {
      assert ['-'] + rest == "-" && "-"[..0] == "";
    }
  }

  lemma SlugStep(h: char, z: string)
    requires h != '-'
    ensures Slug([h] + z) == [h] + (if z != "" && z[0] == '-' && Slug(z) != "" then "-" else "") + Slug(z)
  {
    hide CollapseRuns, Trim, TrimRight;
    CollapseStep(h, z);
    TrimHead(h, CollapseRuns(z));
    RightPart(z);
  }

  lemma {:induction false} SlugSplits(x: string, y: string)
    ensures Slug(x + "-" + y) == Dashed(Slug(x), Slug(y))
  {
    hide Slug;
    if x == "" {
      assert x + "-" + y == "-" + y;
      SlugLead(y);
      EmptySlug();
    } else {
      var h, rest := x[0], x[1..];
      var z := rest + "-" + y;
      SlugSplits(rest, y);
      assert x == [h] + rest && x + "-" + y == [h] + z;
      if h == '-' {
        SlugLead(rest);
        SlugLead(z);
      } else {
        SlugStep(h, rest);
        SlugStep(h, z);
        EmptySlug();
        if rest != "" && rest[0] != '-' {
          FullSlug(rest);
        }
      }
    }
  }

  lemma EmptySlug()
    ensures Slug("") == ""
  {
  }

  lemma FullSlug(s: string)
    requires s != "" && s[0] != '-'
    ensures Slug(s) != ""
  {
    var c := CollapseRuns(s);
    TrimRightPrepend(c[0], c[1..]);
    assert c == [c[0]] + c[1..];
  }

  /** A dropped character parts what stands before and after it; a hyphen appears if there is something on both sides. */
  lemma SanitizeParts(before: string, c: char, after: string)
    requires Survivor(c) == ""
    ensures Sanitize(before + [c] + after) == Dashed(Sanitize(before), Sanitize(after))
  {
    hide Slug, LabelChar, LabelChars, Sanitize, Dashed;
    OneSurvives(c);
    LabelConcat(before + [c], after);
    LabelConcat(before, [c]);
    OneLabel(c);
    SlugSplits(LabelChars(before), LabelChars(after));
    SanitizeIsSlug(before);
    SanitizeIsSlug(after);
    SanitizeIsSlug(before + [c] + after);
  }

  lemma LabelConcat(a: string, b: string)
    ensures LabelChars(a + b) == LabelChars(a) + LabelChars(b)
  {
    hide LabelChar;
  }

  lemma OneLabel(c: char)
    ensures LabelChars([c]) == [LabelChar(c)]
  {
    hide LabelChar;
  }

  lemma SanitizeIsSlug(name: string)
    ensures Sanitize(name) == Slug(LabelChars(name))
  {
  }

  /** A name of which every character survives becomes exactly those characters, with no hyphen. */
  lemma SanitizeWhole(name: string)
    requires forall c | c in name :: Survivor(c) != ""
    ensures Sanitize(name) == Survivors(name)
  {
    var l := LabelChars(name);
    forall i | 0 <= i < |l| ensures l[i] != '-' {
      assert name[i] in name;
      OneSurvives(name[i]);
    }
    CollapseFixed(l);
    LabelKeepsSurvivors(name);
    LettersOfPlain(l);
  }

  lemma {:induction false} LettersOfPlain(s: string)
    requires forall i | 0 <= i < |s| :: s[i] != '-'
    ensures Letters(s) == s
  {
    if s != "" {
      LettersOfPlain(s[1..]);
    }
  }

  /** A label is left as it is, so sanitising twice changes nothing more. */
  lemma SanitizeFixesLabels(s: string)
    requires IsLabel(s)
    ensures Sanitize(s) == s
  {
    hide CollapseRuns;
    LabelUnchanged(s);
    CollapseFixed(s);
  }

  lemma LabelUnchanged(s: string)
    requires LabelAlphabet(s)
    ensures LabelChars(s) == s
  {
    hide LabelChars;
  }

  lemma SanitizeIdempotent(name: string)
    ensures Sanitize(Sanitize(name)) == Sanitize(name)
  {
    SanitizeIsLabel(name);
    SanitizeFixesLabels(Sanitize(name));
  }

  // ----- Base names and suffixed copies -----

  /** The released operator's name: never truncated, and with no fallback for an empty label. */
  function LegacyName(infraID: string, fd: string): string {
    infraID + "-worker-" + Sanitize(fd)
  }

  /** The full base name, before truncation. */
  function FullName(infraID: string, fd: string): string {
    infraID + "-worker-" + (if Sanitize(fd) == "" then "default" else Sanitize(fd))
  }

  function Truncate(name: string): (r: string)
    ensures |r| <= MAX_BASE_LEN
  {
    if |name| > MAX_BASE_LEN then Trim(name[..MAX_BASE_LEN]) else name
  }

  /** A known full name keeps its identity; otherwise room is reserved for a copy suffix. */
  function BaseName(infraID: string, fd: string, known: seq<string>): string {
    if FullName(infraID, fd) in known then FullName(infraID, fd) else Truncate(FullName(infraID, fd))
  }

  /** The name of the copy of the source MachineSet at a position of the sorted source list. */
  function CopyName(base: string, index: nat): string {
    if index == 0 then base else base + "-" + Decimal(index + 1)
  }

  predicate IsSuffixed(name: string, base: string) {
    && |base| + 1 < |name|
    && name[..|base|] == base
    && name[|base|] == '-'
    && forall i | |base| < i < |name| :: IsDigit(name[i])
  }

  predicate InFamily(name: string, base: string) {
    name == base || IsSuffixed(name, base)
  }

  predicate FamiliesOverlap(a: string, b: string) {
    a == b || IsSuffixed(a, b) || IsSuffixed(b, a)
  }

  /** The suffix test accepts exactly the base, a hyphen and one or more decimal digits. */
  lemma SuffixedIffDigits(name: string, base: string)
    ensures IsSuffixed(name, base) <==> exists digits: string :: digits != "" && AllDigits(digits) && name == base + "-" + digits
  {
    if IsSuffixed(name, base) {
      var tail := name[|base| + 1..];
      assert AllDigits(tail) && name == base + "-" + tail;
    }
    forall digits: string | digits != "" && AllDigits(digits) && name == base + "-" + digits
      ensures IsSuffixed(name, base)
    {
      assert name[..|base|] == base && name[|base| + 1..] == digits;
    }
  }

  /** The first copy has the base name, the second ends in -2, and so on. */
  lemma CopyNameNumbers(base: string, index: nat)
    ensures index == 0 ==> CopyName(base, index) == base
    ensures index > 0 ==>
              exists digits :: AllDigits(digits) && Value(digits) == index + 1 && digits[..1] != "0" && CopyName(base, index) == base + "-" + digits
  {
    DecimalReadsBack(index + 1);
    assert Decimal(index + 1)[..1] != "0";
  }

  /** A name is cut only beyond 59 bytes, and then to the longest prefix of 59 bytes that ends in no hyphen. */
  lemma TruncateCuts(name: string)
    requires HyphenFree(name)
    ensures Truncate(name) <= name
    ensures |name| <= 59 ==> Truncate(name) == name
    ensures |name| > 59 ==> |Truncate(name)| <= 59 && forall i | |Truncate(name)| <= i < 59 :: name[i] == '-'
  {
    if |name| > 59 {
      var window := name[..59];
      TrimNoLeading(window);
      assert forall i | 0 <= i < 59 :: window[i] == name[i];
    }
  }

  /** The base starts with the infrastructure ID and the sanitised failure domain name, and is cut only beyond 59 bytes. */
  lemma BaseNameShape(infraID: string, fd: string, known: seq<string>)
    requires ValidInfraID(infraID)
    ensures
      var full := infraID + "-worker-" + (if Survivors(fd) == "" then "default" else Sanitize(fd));
      var base := BaseName(infraID, fd, known);
      && base <= full
      && (|full| <= 59 || full in known ==> base == full)
      && (|full| > 59 && full !in known ==> |base| <= 59 && forall i | |base| <= i < 59 :: full[i] == '-')
  {
    hide Sanitize, Truncate, Survivors, Letters, HyphenFree;
    SanitizeKeepsSurvivors(fd);
    SanitizeIsLabel(fd);
    LabelEmptyIffLetters(Sanitize(fd));
    FullNameShape(infraID, fd);
    TruncateCuts(FullName(infraID, fd));
  }

  lemma LabelEmptyIffLetters(s: string)
    requires IsLabel(s)
    ensures Letters(s) == "" <==> s == ""
  {
  }

  lemma CopyInFamily(base: string, index: nat)
    ensures InFamily(CopyName(base, index), base)
    ensures index > 0 ==> IsSuffixed(CopyName(base, index), base)
  {
    if index > 0 {
      var d := Decimal(index + 1);
      var n := base + "-" + d;
      assert n[..|base|] == base && n[|base| + 1..] == d;
    }
  }

  lemma CopyNameInjective(base: string, i: nat, j: nat)
    requires CopyName(base, i) == CopyName(base, j)
    ensures i == j
  {
    if i > 0 && j > 0 {
      assert CopyName(base, i)[|base| + 1..] == Decimal(i + 1);
      assert CopyName(base, j)[|base| + 1..] == Decimal(j + 1);
      DecimalInjective(i + 1, j + 1);
    }
  }

  lemma SuffixPosition(name: string, a: string, b: string)
    requires IsSuffixed(name, a) && IsSuffixed(name, b)
    ensures a == b
  {
    assert |a| == |b|;
  }

  /**
   The infinite families of two bases share a name exactly when the finite pairwise check fails,
   so a mapping list that passes it attributes every name to at most one mapping.
   */
  lemma FamiliesMeetIffOverlap(a: string, b: string)
    ensures (exists n: string :: InFamily(n, a) && InFamily(n, b)) <==> FamiliesOverlap(a, b)
  {
    if n: string :| InFamily(n, a) && InFamily(n, b) {
      if n != a && n != b {
        SuffixPosition(n, a, b);
      }
    }
    if FamiliesOverlap(a, b) {
      var n := if IsSuffixed(a, b) then a else b;
      assert InFamily(n, a) && InFamily(n, b);
    }
  }

  /** Two generated names agree only if they come from the same base and the same position. */
  lemma GeneratedNamesInjective(a: string, b: string, i: nat, j: nat)
    requires a == b || !FamiliesOverlap(a, b)
    requires CopyName(a, i) == CopyName(b, j)
    ensures a == b && i == j
  {
    CopyInFamily(a, i);
    CopyInFamily(b, j);
    FamiliesMeetIffOverlap(a, b);
    CopyNameInjective(a, i, j);
  }

  // ----- Truncation -----

  predicate HyphenFree(s: string) {
    s != [] && s[0] != '-' && s[|s| - 1] != '-'
  }

  predicate ValidInfraID(infraID: string) {
    infraID != [] && infraID[0] != '-'
  }

  lemma FullNameShape(infraID: string, fd: string)
    requires ValidInfraID(infraID)
    ensures HyphenFree(FullName(infraID, fd))
    ensures HyphenFree(Truncate(FullName(infraID, fd)))
  {
    hide Sanitize, Letters, Truncate, HasDoubleHyphen, LabelAlphabet;
    SanitizeIsLabel(fd);
    TruncateShape(FullName(infraID, fd));
  }

  lemma TrimNoLeading(s: string)
    requires s != [] && s[0] != '-'
    ensures Trim(s) == TrimRight(s) && HyphenFree(Trim(s))
  {
    assert TrimLeft(s) == s;
  }

  lemma TruncateShape(name: string)
    requires HyphenFree(name)
    ensures HyphenFree(Truncate(name)) && Truncate(name) <= name
  {
    if |name| > MAX_BASE_LEN {
      TrimNoLeading(name[..MAX_BASE_LEN]);
    }
  }

  lemma TrimRightUnique(s: string, k: nat)
    requires 0 < k <= |s| && s[k - 1] != '-'
    requires forall i | k <= i < |s| :: s[i] == '-'
    ensures TrimRight(s) == s[..k]
  {
    var r := TrimRight(s);
    assert |r| == k;
  }

  /** Truncation cannot pull two families apart: an overlap before it is an overlap after it. */
  lemma TruncatePreservesOverlap(x: string, y: string)
    requires HyphenFree(x) && HyphenFree(y) && IsSuffixed(y, x)
    ensures FamiliesOverlap(Truncate(x), Truncate(y))
  {
    if |y| > MAX_BASE_LEN {
      var cut := y[..MAX_BASE_LEN];
      TrimNoLeading(cut);
      assert y[..|x|] == x;
      if |x| > MAX_BASE_LEN {
        assert cut == x[..MAX_BASE_LEN];
      } else if |x| >= MAX_BASE_LEN - 1 {
        assert cut[|x| - 1] == x[|x| - 1];
        TrimRightUnique(cut, |x|);
        assert cut[..|x|] == x;
      } else {
        var last := MAX_BASE_LEN - 1;
        assert cut[last] == y[last];
        TrimRightUnique(cut, |cut|);
        assert cut[..|x|] == x && cut[|x|] == '-';
        assert IsSuffixed(Truncate(y), Truncate(x));
      }
    }
  }

  lemma TruncateIdempotent(name: string)
    ensures Truncate(Truncate(name)) == Truncate(name)
  {
  }

  /** The names a mapping to destination fd may ever use: the families of its full and truncated bases. */
  predicate Owns(infraID: string, fd: string, name: string) {
    InFamily(name, FullName(infraID, fd)) || InFamily(name, Truncate(FullName(infraID, fd)))
  }

  lemma OverlapReachesTruncated(x: string, y: string, name: string)
    requires HyphenFree(x) && HyphenFree(y)
    requires InFamily(name, x) && InFamily(name, y)
    ensures FamiliesOverlap(Truncate(x), Truncate(y))
  {
    FamiliesMeetIffOverlap(x, y);
    if IsSuffixed(y, x) {
      TruncatePreservesOverlap(x, y);
    } else if IsSuffixed(x, y) {
      TruncatePreservesOverlap(y, x);
    }
  }

  /**
   The preflight check compares only truncated bases. That is enough: when it passes, no name
   belongs to both destinations, not even through the untruncated identity a released operator
   may have left behind.
   */
  lemma PreflightSeparatesOwners(infraID: string, a: string, b: string, name: string)
    requires ValidInfraID(infraID)
    requires !FamiliesOverlap(Truncate(FullName(infraID, a)), Truncate(FullName(infraID, b)))
    requires Owns(infraID, a, name)
    ensures !Owns(infraID, b, name)
  {
    if Owns(infraID, b, name) {
      var fa, fb := FullName(infraID, a), FullName(infraID, b);
      FullNameShape(infraID, a);
      FullNameShape(infraID, b);
      var x := if InFamily(name, fa) then fa else Truncate(fa);
      var y := if InFamily(name, fb) then fb else Truncate(fb);
      OverlapReachesTruncated(x, y, name);
      TruncateIdempotent(fa);
      TruncateIdempotent(fb);
    }
  }

  /** A generated name fits the 63-byte label limit for every copy up to index 998. */
  lemma GeneratedNameFits(infraID: string, fd: string, index: nat)
    requires index < 999
    ensures |CopyName(BaseName(infraID, fd, []), index)| <= 63
  {
    ThreeDigits(index + 1);
  }
}
