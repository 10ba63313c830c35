/**
 The byte-bounded messages about old workers that are slow to go away: the event note and the condition
 message. Strings are sequences of bytes here.
 */
module Messages {
  import opened Text
  import opened FailureDomains

  const MAX_MESSAGE := 32768
  const MAX_NOTE := 1024
  const NOTE_PREFIX := "Old worker deletion stalled: "

  function Join(texts: seq<string>, separator: string): string {
    if texts == [] then ""
    else if |texts| == 1 then texts[0]
    else Join(texts[..|texts| - 1], separator) + separator + texts[|texts| - 1]
  }

  /** The separator stands between neighbours and nowhere else, so a list may be taken apart at its first entry too. */
  lemma {:induction false} JoinFirst(texts: seq<string>, separator: string)
    requires |texts| > 1
    ensures Join(texts, separator) == texts[0] + separator + Join(texts[1..], separator)
  {
    var front, rest, last := texts[..|texts| - 1], texts[1..], texts[|texts| - 1];
    assert Join(texts, separator) == Join(front, separator) + separator + last;
    if |texts| > 2 {
      JoinFirst(front, separator);
      assert rest[..|rest| - 1] == front[1..];
      assert Join(rest, separator) == Join(front[1..], separator) + separator + last;
    }
  }

  function TruncateTo(s: string, max: int): (r: string)
    ensures |r| <= |s| && r <= s && (max >= 0 ==> |r| <= max)
    ensures |s| <= max ==> r == s
  {
    if max <= 0 then "" else if |s| <= max then s else s[..max]
  }

  // ----- The event note -----

  /** One MachineSet's line, and the machines it lists. */
  datatype Part = Part(text: string, machines: seq<string>)

  function Texts(parts: seq<Part>): (r: seq<string>)
    ensures |r| == |parts|
  {
    seq(|parts|, i requires 0 <= i < |parts| => parts[i].text)
  }

  function Detail(parts: seq<Part>): string {
    Join(Texts(parts), "; ")
  }

  function Machines(parts: seq<Part>): seq<string> {
    if parts == [] then [] else Machines(parts[..|parts| - 1]) + parts[|parts| - 1].machines
  }

  /** What every omission notice says first. */
  function OmitCount(count: nat): string {
    "; ... and " + Decimal(count) + " more machine(s) omitted"
  }

  function OmitSuffix(omitted: seq<string>): string {
    if omitted == [] then "" else OmitCount(|omitted|) + ": [" + Join(omitted, ", ") + "]"
  }

  /** The notice with the first n names only. */
  function Listing(omitted: seq<string>, n: nat): string
    requires n <= |omitted|
  {
    OmitCount(|omitted|) + ": [" + Join(omitted[..n], ", ") + "]"
  }

  lemma ListingAll(omitted: seq<string>)
    requires omitted != []
    ensures OmitSuffix(omitted) == Listing(omitted, |omitted|)
  {
    assert omitted[..|omitted|] == omitted;
  }

  lemma {:induction false} JoinedNames(names: seq<string>)
    requires names != [] && forall n | n in names :: n != ""
    ensures Join(names, ", ") != ""
  {
    assert names[|names| - 1] in names && names[0] in names;
  }

  /** A suffix that fits: all names, as many as fit, or the count alone. */
  method FitOmitSuffix(omitted: seq<string>, max: nat) returns (suffix: string)
    ensures |suffix| <= max
    ensures omitted == [] ==> suffix == ""
    ensures |OmitSuffix(omitted)| <= max ==> suffix == OmitSuffix(omitted)
    ensures omitted != [] && |OmitCount(|omitted|)| <= max ==> OmitCount(|omitted|) <= suffix
    ensures omitted != [] && (forall n | n in omitted :: n != "") ==>
              || (exists n | 0 < n <= |omitted| :: suffix == Listing(omitted, n) && forall k | n < k <= |omitted| :: |Listing(omitted, k)| > max)
              || (suffix <= OmitCount(|omitted|) && forall k | 0 < k <= |omitted| :: |Listing(omitted, k)| > max)
  {
    hide Join, OmitCount;
    if omitted == [] {
      return "";
    }
    suffix := OmitSuffix(omitted);
    ListingAll(omitted);
    if |suffix| <= max {
      return;
    }
    var count := OmitCount(|omitted|);
    var countPrefix := count + ": [";
    if max - |countPrefix| - 1 <= 0 {
      forall k | 0 < k <= |omitted| && (forall n | n in omitted :: n != "")
        ensures |Listing(omitted, k)| > max
      {
        assert forall n | n in omitted[..k] :: n in omitted;
        JoinedNames(omitted[..k]);
      }
      return TruncateTo(count, max);
    }
    var names := omitted;
    assert omitted[..|omitted|] == omitted;
    while names != []
      invariant names == omitted[..|names|]
      invariant forall k | |names| < k <= |omitted| :: |Listing(omitted, k)| > max
      decreases |names|
    {
      var trial := countPrefix + Join(names, ", ") + "]";
      assert trial == Listing(omitted, |names|);
      if |trial| <= max {
        return trial;
      }
      names := names[..|names| - 1];
    }
    return TruncateTo(count, max);
  }

  /** The note shows the first k parts and says how many machines of the others it leaves out. */
  ghost predicate NoteShows(note: string, parts: seq<Part>, k: nat, omitted: nat) {
    && k <= |parts|
    && |Machines(parts[..k])| + omitted == |Machines(parts)|
    && NOTE_PREFIX + Detail(parts[..k]) <= note
    && (k == |parts| ==> note == NOTE_PREFIX + Detail(parts))
    && (omitted == 0 ==> note == NOTE_PREFIX + Detail(parts[..k]))
    && (omitted > 0 && |Decimal(omitted)| <= 900 ==> NOTE_PREFIX + Detail(parts[..k]) + OmitCount(omitted) <= note)
  }

  lemma {:induction false} MachinesPrefix(parts: seq<Part>, k: nat)
    requires k <= |parts|
    ensures Machines(parts[..k]) <= Machines(parts)
    decreases |parts| - k
  {
    if k < |parts| {
      MachinesPrefix(parts, k + 1);
      assert parts[..k + 1][..k] == parts[..k];
    } else {
      assert parts[..k] == parts;
    }
  }

  lemma MachinesNext(parts: seq<Part>, k: nat)
    requires k < |parts|
    ensures Machines(parts[..k + 1]) == Machines(parts[..k]) + parts[k].machines
  {
    assert parts[..k + 1][..k] == parts[..k];
  }

  method AllMachines(parts: seq<Part>) returns (r: seq<string>)
    ensures r == Machines(parts)
  {
    r := [];
    for i := 0 to |parts|
      invariant r == Machines(parts[..i])
    {
      MachinesNext(parts, i);
      r := r + parts[i].machines;
    }
    assert parts[..|parts|] == parts;
  }

  /** How many leading parts fit together with the notice about the rest. */
  method FittingParts(parts: seq<Part>, all: seq<string>) returns (k: nat, shown: nat)
    requires all == Machines(parts)
    ensures k <= |parts| && shown == |Machines(parts[..k])| <= |all|
    ensures k == 0 || |NOTE_PREFIX + Detail(parts[..k]) + OmitSuffix(all[shown..])| <= MAX_NOTE
    ensures k < |parts| ==>
              var next := shown + |parts[k].machines|;
              next <= |all| && |NOTE_PREFIX + Detail(parts[..k + 1]) + OmitSuffix(all[next..])| > MAX_NOTE
  {
    hide Detail, OmitSuffix;
    k, shown := 0, 0;
    while k < |parts|
      invariant k <= |parts| && shown == |Machines(parts[..k])| <= |all|
      invariant k == 0 || |NOTE_PREFIX + Detail(parts[..k]) + OmitSuffix(all[shown..])| <= MAX_NOTE
    {
      MachinesNext(parts, k);
      MachinesPrefix(parts, k + 1);
      var next := shown + |parts[k].machines|;
      if |NOTE_PREFIX + Detail(parts[..k + 1]) + OmitSuffix(all[next..])| > MAX_NOTE {
        break;
      }
      k, shown := k + 1, next;
    }
  }

  /** The event note never exceeds its bound, and the machines it shows and those it leaves out add up. */
  method BoundStallNote(parts: seq<Part>) returns (note: string, ghost k: nat, ghost omitted: nat)
    ensures |note| <= 1024
    ensures NoteShows(note, parts, k, omitted)
    ensures |NOTE_PREFIX + Detail(parts)| <= 1024 ==> note == NOTE_PREFIX + Detail(parts)
    ensures k < |parts| ==>
              && |Machines(parts[..k + 1])| <= |Machines(parts)|
              && |NOTE_PREFIX + Detail(parts[..k + 1]) + OmitSuffix(Machines(parts)[|Machines(parts[..k + 1])|..])| > 1024
  {
    hide Detail, OmitSuffix, OmitCount, Machines;
    assert parts[..|parts|] == parts;
    var all := AllMachines(parts);
    note := NOTE_PREFIX + Detail(parts);
    if |note| <= MAX_NOTE {
      return note, |parts|, 0;
    }
    var count, shown := FittingParts(parts, all);
    k, omitted := count, |all| - shown;
    if count < |parts| {
      MachinesNext(parts, count);
    }
    var shownText := NOTE_PREFIX + Detail(parts[..count]);
    NoDetail(parts[..0]);
    FitFacts(all[shown..]);
    var suffix := FitOmitSuffix(all[shown..], MAX_NOTE - |shownText|);
    note := shownText + suffix;
    CountLength(omitted);
  }

  lemma NoDetail(parts: seq<Part>)
    ensures parts == [] ==> Detail(parts) == ""
  {
  }

  /** A full notice starts with its count. */
  lemma FitFacts(omitted: seq<string>)
    ensures omitted != [] ==> OmitCount(|omitted|) <= OmitSuffix(omitted)
    ensures omitted == [] ==> OmitSuffix(omitted) == ""
  {
    hide OmitCount;
  }

  lemma CountLength(count: nat)
    ensures |OmitCount(count)| == 34 + |Decimal(count)|
  {
  }

  // ----- The condition message -----

  /** The first position of a byte, or the length if it does not occur. */
  function IndexOf(s: string, c: char): (r: nat)
    ensures r <= |s| && (r < |s| ==> s[r] == c) && forall i | 0 <= i < r :: s[i] != c
  {
    if s == "" || s[0] == c then 0 else 1 + IndexOf(s[1..], c)
  }

  function Count(s: string, c: char): nat {
    if s == "" then 0 else (if s[0] == c then 1 else 0) + Count(s[1..], c)
  }

  predicate IsSpace(c: char) {
    c in {' ', '\t', '\n', '\r'}
  }

  /** The machines listed between two brackets: one per closing parenthesis, or else one per comma and one more. */
  function CountEntries(s: string): nat {
    if forall i | 0 <= i < |s| :: IsSpace(s[i]) then 0
    else if Count(s, ')') > 0 then Count(s, ')')
    else Count(s, ',') + 1
  }

  /** The machines listed in all brackets of a message, an unclosed last one included. */
  function ListedMachines(msg: string): nat
    decreases |msg|
  {
    var open := IndexOf(msg, '[');
    if open == |msg| then 0 else ListedInside(msg[open + 1..])
  }

  /** The machines listed from inside a bracket on. */
  function ListedInside(inside: string): nat
    decreases |inside|
  {
    var close := IndexOf(inside, ']');
    if close == |inside| then CountEntries(inside)
    else CountEntries(inside[..close]) + ListedMachines(inside[close + 1..])
  }

  lemma {:induction false} CountConcat(s: string, t: string, c: char)
    ensures Count(s + t, c) == Count(s, c) + Count(t, c)
  {
    if s == "" {
      assert s + t == t;
    } else {
      CountConcat(s[1..], t, c);
      assert (s + t)[1..] == s[1..] + t;
    }
  }

  /** Joining adds one comma between neighbours and no parenthesis. */
  lemma CountStep(entries: seq<string>, c: char)
    requires |entries| > 1 && (c == ')' || c == ',')
    ensures
      var front, last := entries[..|entries| - 1], entries[|entries| - 1];
      Count(Join(entries, ", "), c) == Count(Join(front, ", "), c) + (if c == ',' then 1 else 0) + Count(last, c)
  {
    var front, last := Join(entries[..|entries| - 1], ", "), entries[|entries| - 1];
    CountSeparator();
    hide Count;
    CountConcat(front + ", ", last, c);
    CountConcat(front, ", ", c);
  }

  lemma CountSeparator()
    ensures Count(", ", ',') == 1 && Count(", ", ')') == 0
  {
    assert ", "[1..] == " " && " "[1..] == "";
    assert Count(" ", ',') == 0 && Count(" ", ')') == 0;
  }

  lemma {:induction false} CountClosings(entries: seq<string>)
    requires forall e | e in entries :: Count(e, ')') == 1
    ensures Count(Join(entries, ", "), ')') == |entries|
  {
    if |entries| > 1 {
      hide Count, Join;
      assert entries[|entries| - 1] in entries;
      CountClosings(entries[..|entries| - 1]);
      CountStep(entries, ')');
    } else if |entries| == 1 {
      assert entries[0] in entries;
    }
  }

  lemma {:induction false} CountCommas(entries: seq<string>)
    requires entries != [] && forall e | e in entries :: Count(e, ',') == 0
    ensures Count(Join(entries, ", "), ',') == |entries| - 1
  {
    if |entries| > 1 {
      hide Count, Join;
      assert entries[|entries| - 1] in entries;
      CountCommas(entries[..|entries| - 1]);
      CountStep(entries, ',');
    } else if |entries| == 1 {
      assert entries[0] in entries;
    }
  }

  lemma {:induction false} CountIn(s: string, c: char)
    ensures Count(s, c) > 0 <==> c in s
  {
    if s != "" {
      CountIn(s[1..], c);
    }
  }

  lemma {:induction false} InJoin(entries: seq<string>, e: string, c: char)
    requires e in entries && c in e
    ensures c in Join(entries, ", ")
  {
    var front, last := entries[..|entries| - 1], entries[|entries| - 1];
    if e in front {
      InJoin(front, e, c);
    }
  }

  /** A bracket counts its entries when each of them ends in its only closing parenthesis. */
  lemma BracketCounts(entries: seq<string>)
    requires forall e | e in entries :: Count(e, ')') == 1
    ensures CountEntries(Join(entries, ", ")) == |entries|
  {
    hide Count, Join;
    CountClosings(entries);
    if entries == [] {
      JoinedNothing();
    } else {
      assert entries[0] in entries;
      CountIn(entries[0], ')');
      InJoin(entries, entries[0], ')');
      NotBlank(Join(entries, ", "), ')');
    }
  }

  /** It counts plain names as well, if they hold neither a parenthesis nor a comma and are not blank. */
  lemma PlainBracketCounts(names: seq<string>)
    requires names != [] && forall n | n in names :: ')' !in n && ',' !in n
    requires exists c :: c in names[0] && !IsSpace(c)
    ensures CountEntries(Join(names, ", ")) == |names|
  {
    hide Count, Join, IsSpace;
    var c :| c in names[0] && !IsSpace(c);
    InJoin(names, names[0], c);
    NotBlank(Join(names, ", "), c);
    NotInJoin(names, ')');
    CountIn(Join(names, ", "), ')');
    forall n | n in names ensures Count(n, ',') == 0 {
      CountIn(n, ',');
    }
    CountCommas(names);
  }

  lemma NotBlank(s: string, c: char)
    requires c in s && !IsSpace(c)
    ensures !(forall i | 0 <= i < |s| :: IsSpace(s[i]))
  {
  }

  lemma JoinedNothing()
    ensures Join([], ", ") == ""
  {
  }

  lemma IndexSkips(c: char, tail: string)
    requires c != '['
    ensures IndexOf([c] + tail, '[') == 1 + IndexOf(tail, '[')
  {
    assert ([c] + tail)[1..] == tail;
  }

  lemma SkipOne(c: char, tail: string)
    requires c != '['
    ensures ListedMachines([c] + tail) == ListedMachines(tail)
  {
    hide ListedInside, IndexOf;
    var msg := [c] + tail;
    var open := IndexOf(tail, '[');
    IndexSkips(c, tail);
    if open < |tail| {
      assert msg[open + 2..] == tail[open + 1..];
    }
  }

  lemma {:induction false} SkipPlain(plain: string, rest: string)
    requires '[' !in plain
    ensures ListedMachines(plain + rest) == ListedMachines(rest)
  {
    hide ListedMachines;
    if plain == "" {
      assert plain + rest == rest;
    } else {
      SkipPlain(plain[1..], rest);
      SkipOne(plain[0], plain[1..] + rest);
      assert plain + rest == [plain[0]] + (plain[1..] + rest);
    }
  }

  lemma {:induction false} FirstIndex(before: string, c: char, rest: string)
    requires c !in before
    ensures IndexOf(before + [c] + rest, c) == |before|
  {
    if before == "" {
      assert before + [c] + rest == [c] + rest;
    } else {
      FirstIndex(before[1..], c, rest);
      assert (before + [c] + rest)[1..] == before[1..] + [c] + rest;
      assert before[0] in before;
    }
  }

  lemma BracketListed(inside: string, rest: string)
    requires ']' !in inside
    ensures ListedMachines("[" + inside + "]" + rest) == CountEntries(inside) + ListedMachines(rest)
  {
    hide CountEntries;
    var msg := "[" + inside + "]" + rest;
    assert IndexOf(msg, '[') == 0;
    FirstIndex(inside, ']', rest);
    assert msg[1..] == inside + [']'] + rest;
    assert msg[1..][..|inside|] == inside && msg[1..][|inside| + 1..] == rest;
  }

  /** One MachineSet's line in a stall message: its head, its machines in brackets, and how many nodes are left. */
  datatype Line = Line(head: string, entries: seq<string>, tail: string)

  function Rendered(line: Line): string {
    line.head + "[" + Join(line.entries, ", ") + "]" + line.tail
  }

  function AllRendered(lines: seq<Line>): (r: seq<string>)
    ensures |r| == |lines|
  {
    seq(|lines|, i requires 0 <= i < |lines| => Rendered(lines[i]))
  }

  /** Names and reasons hold no brackets, and each machine's entry ends in its only closing parenthesis. */
  ghost predicate WellFormedLine(line: Line) {
    && '[' !in line.head && '[' !in line.tail
    && forall e | e in line.entries :: Count(e, ')') == 1 && ']' !in e
  }

  function EntryCount(lines: seq<Line>): nat {
    if lines == [] then 0 else EntryCount(lines[..|lines| - 1]) + |lines[|lines| - 1].entries|
  }

  lemma {:induction false} NotInJoin(entries: seq<string>, c: char)
    requires c != ',' && c != ' ' && forall e | e in entries :: c !in e
    ensures c !in Join(entries, ", ")
  {
    if |entries| > 1 {
      NotInJoin(entries[..|entries| - 1], c);
      assert entries[|entries| - 1] in entries;
    } else if |entries| == 1 {
      assert entries[0] in entries;
    }
  }

  lemma LineListed(line: Line, rest: string)
    requires WellFormedLine(line)
    ensures ListedMachines(Rendered(line) + rest) == |line.entries| + ListedMachines(rest)
  {
    hide ListedMachines, CountEntries, Join, Count;
    var inside := Join(line.entries, ", ");
    NotInJoin(line.entries, ']');
    BracketCounts(line.entries);
    assert Rendered(line) + rest == line.head + ("[" + inside + "]" + (line.tail + rest));
    SkipPlain(line.head, "[" + inside + "]" + (line.tail + rest));
    BracketListed(inside, line.tail + rest);
    SkipPlain(line.tail, rest);
  }

  lemma {:induction false} LinesListed(lines: seq<Line>, rest: string)
    requires forall line | line in lines :: WellFormedLine(line)
    ensures ListedMachines(Join(AllRendered(lines), "; ") + rest) == EntryCount(lines) + ListedMachines(rest)
  {
    hide ListedMachines, WellFormedLine, Rendered;
    var texts := AllRendered(lines);
    if lines == [] {
      assert Join(texts, "; ") + rest == rest;
    } else {
      var front, last := lines[..|lines| - 1], lines[|lines| - 1];
      assert last in lines && forall line | line in front :: line in lines;
      LineListed(last, rest);
      assert texts[..|texts| - 1] == AllRendered(front);
      if front == [] {
        assert Join(texts, "; ") == Rendered(last);
      } else {
        LinesListed(front, "; " + (Rendered(last) + rest));
        SkipPlain("; ", Rendered(last) + rest);
        assert Join(texts, "; ") + rest == Join(AllRendered(front), "; ") + ("; " + (Rendered(last) + rest));
      }
    }
  }

  /** What is counted in a stall message is the number of machines its lines list. */
  lemma StallMessageCounts(opening: string, lines: seq<Line>)
    requires '[' !in opening && forall line | line in lines :: WellFormedLine(line)
    ensures ListedMachines(opening + Join(AllRendered(lines), "; ")) == EntryCount(lines)
  {
    hide ListedMachines, WellFormedLine;
    var detail := Join(AllRendered(lines), "; ");
    SkipPlain(opening, detail);
    LinesListed(lines, "");
    assert detail + "" == detail;
    NothingListed();
  }

  lemma NothingListed()
    ensures ListedMachines("") == 0
  {
  }

  method CountMachines(msg: string) returns (count: nat)
    ensures count == ListedMachines(msg)
  {
    hide CountEntries, IndexOf;
    count := 0;
    var start := 0;
    assert msg[0..] == msg;
    while true
      invariant start <= |msg| && count + ListedMachines(msg[start..]) == ListedMachines(msg)
      decreases |msg| - start
    {
      var open := IndexOf(msg[start..], '[');
      if open == |msg[start..]| {
        break;
      }
      var inside := msg[start..][open + 1..];
      var close := IndexOf(inside, ']');
      if close == |inside| {
        count := count + CountEntries(inside);
        return;
      }
      count := count + CountEntries(inside[..close]);
      start := start + open + 1 + close + 1;
      assert msg[start..] == inside[close + 1..];
    }
  }

  /** The last position at which a two-byte separator starts, or -1. */
  function LastIndex(s: string, a: char, b: char): (r: int)
    ensures -1 <= r < |s|
    ensures r >= 0 ==> r + 1 < |s| && s[r] == a && s[r + 1] == b
    ensures forall i | r < i < |s| - 1 :: !(s[i] == a && s[i + 1] == b)
  {
    if |s| < 2 then -1
    else if s[|s| - 2] == a && s[|s| - 1] == b then |s| - 2
    else LastIndex(s[..|s| - 1], a, b)
  }

  /** The last position at which the byte is followed by a space is n, and not the first of the message. */
  predicate LastAt(s: string, n: nat, c: char) {
    && 0 < n < |s| - 1 && s[n] == c && s[n + 1] == ' '
    && forall i | n < i < |s| - 1 :: !(s[i] == c && s[i + 1] == ' ')
  }

  /** Cuts a message back to its last complete part, or failing that its last complete machine. */
  function CutBack(prefix: string): (r: string)
    ensures r <= prefix
    ensures r == prefix || LastAt(prefix, |r|, ';') || LastAt(prefix, |r|, ',')
    ensures forall i | 0 < i < |prefix| - 1 && prefix[i] == ';' && prefix[i + 1] == ' ' ::
              |r| < |prefix| - 1 && prefix[|r|] == ';' && i <= |r|
    ensures forall i | 0 < i < |prefix| - 1 && prefix[i] == ',' && prefix[i + 1] == ' ' :: |r| < |prefix| - 1
  {
    var semi, comma := LastIndex(prefix, ';', ' '), LastIndex(prefix, ',', ' ');
    if semi > 0 then prefix[..semi] else if comma > 0 then prefix[..comma] else prefix
  }

  /**
   A condition message never exceeds its bound; an oversized one keeps a prefix and says how many of its
   machines it leaves out, at least one. The notice itself is never cut.
   */
  method BoundConditionMessage(msg: string) returns (r: string, ghost kept: string, ghost omitted: nat)
    ensures |r| <= 32768
    ensures |msg| <= 32768 ==> r == msg
    ensures |msg| > 32768 && |OmitCount(ListedMachines(msg))| < 32768 ==>
              && kept == CutBack(msg[..32768 - |OmitCount(ListedMachines(msg))|]) && r == kept + OmitCount(omitted)
              && omitted == (if ListedMachines(kept) < ListedMachines(msg) then ListedMachines(msg) - ListedMachines(kept) else 1)
  {
    hide ListedMachines, LastIndex, CutBack, Decimal;
    kept, omitted := msg, 0;
    if |msg| <= MAX_MESSAGE {
      return msg, msg, 0;
    }
    var total := CountMachines(msg);
    var estimate := OmitCount(total);
    if MAX_MESSAGE - |estimate| <= 0 {
      r := TruncateTo(estimate, MAX_MESSAGE);
      return;
    }
    var prefix := CutBack(msg[..MAX_MESSAGE - |estimate|]);
    var preserved := CountMachines(prefix);
    var left := if preserved < total then total - preserved else 1;
    var suffix := OmitCount(left);
    FewerDigits(left, total);
    if |prefix| + |suffix| > MAX_MESSAGE {
      prefix := TruncateTo(prefix, MAX_MESSAGE - |suffix|);
    }
    kept, omitted := prefix, left;
    r := prefix + suffix;
  }

  lemma FewerDigits(left: nat, total: nat)
    requires left <= total || left == 1
    ensures |OmitCount(left)| <= |OmitCount(total)|
  {
    if left <= total {
      DecimalLengthMonotone(left, total);
    }
  }
}
