/**
 Redaction of resolved values (crates/loadsmith-config/src/mask.rs): what
 `add` records and what `apply` leaves.
 */
module Mask {
  import opened Text
  import opened Wrappers

  const MASK: string := "***"
  const MIN_MASKED_LINE_CHARS: nat := 8

  // ----- texts ------------------------------------------------------------------------

  predicate At(s: string, k: nat, v: string) { k + |v| <= |s| && s[k..k + |v|] == v }

  predicate Contains(s: string, v: string) { exists k: nat :: k <= |s| && At(s, k, v) }

  /** No mask can spell a part of it: it neither begins nor ends with a star and holds no mask. */
  predicate Maskable(v: string) {
    v != "" && v[0] != '*' && v[|v| - 1] != '*' && !Contains(v, MASK)
  }

  /** Every occurrence of `v`, from the left and without overlaps, becomes the mask. */
  function Replace(s: string, v: string): string
    requires v != ""
    decreases |s|
  {
    if s == "" then ""
    else if v <= s then MASK + Replace(s[|v|..], v)
    else [s[0]] + Replace(s[1..], v)
  }

  // ----- what is recorded -------------------------------------------------------------

  /** Bytes of a character in UTF-8. */
  function Bytes(c: char): nat {
    if c as int < 0x80 then 1 else if c as int < 0x800 then 2 else if c as int < 0x1_0000 then 3 else 4
  }

  /** The codes below this fit into `n` bytes: 7 bits, 11, then 5 more for each byte. */
  function Capacity(n: nat): nat { if n <= 1 then 0x80 else if n == 2 then 0x800 else 32 * Capacity(n - 1) }

  /** As many bytes as the code needs, and no more. */
  lemma BytesAreFewest(c: char)
    ensures 1 <= Bytes(c) <= 4 && c as int < Capacity(Bytes(c)) && (Bytes(c) > 1 ==> Capacity(Bytes(c) - 1) <= c as int)
  {
    assert Capacity(3) == 0x1_0000 && Capacity(4) == 0x20_0000;
  }

  function Length(s: string): nat { if s == "" then 0 else Bytes(s[0]) + Length(s[1..]) }

  /** The text up to the first line feed, and what follows it. */
  function FirstLine(s: string): (r: (string, string))
    ensures |r.0| <= |s| && |r.1| <= |s| && (s != "" ==> |r.1| < |s|)
  {
    if s == "" then ("", "")
    else if s[0] == '\n' then ("", s[1..])
    else var (line, rest) := FirstLine(s[1..]); ([s[0]] + line, rest)
  }

  /** Lines end at a line feed, with or without a carriage return before it; the
      last one need not. */
  function Lines(s: string): seq<string>
    decreases |s|
  {
    if s == "" then []
    else
      var (line, rest) := FirstLine(s);
      var ended := |line| < |s|;
      [if ended && line != "" && line[|line| - 1] == '\r' then line[..|line| - 1] else line] + Lines(rest)
  }

  /** The trimmed lines of a text that are long enough to be masked on their own. */
  function LongLines(lines: seq<string>): (r: seq<string>)
    ensures forall x :: x in r <==> |x| >= MIN_MASKED_LINE_CHARS && exists l :: l in lines && x == Trim(l)
  {
    if lines == [] then []
    else
      var x, rest := Trim(lines[0]), LongLines(lines[1..]);
      assert forall l :: l in lines <==> l == lines[0] || l in lines[1..];
      if |x| >= MIN_MASKED_LINE_CHARS then [x] + rest else rest
  }

  function Hex(n: nat): char
    requires n < 16
  {
    if n < 10 then ('0' as int + n) as char else ('a' as int + n - 10) as char
  }

  /** A character as JSON spells it inside a string. */
  function EscapeChar(c: char): string {
    if c == '\"' then "\\\""
    else if c == '\\' then "\\\\"
    else if c as int == 0x08 then "\\b"
    else if c as int == 0x0c then "\\f"
    else if c == '\n' then "\\n"
    else if c == '\r' then "\\r"
    else if c == '\t' then "\\t"
    else if c as int < 0x20 then "\\u00" + [Hex(c as int / 16), Hex(c as int % 16)]
    else [c]
  }

  function Escape(s: string): string { if s == "" then "" else EscapeChar(s[0]) + Escape(s[1..]) }

  /** What one value records: its long lines, its JSON spelling when that
      differs, and itself. */
  function Parts(s: string): seq<string> {
    (if '\n' in s then LongLines(Lines(s)) else []) + (if Escape(s) != s then [Escape(s)] else []) + [s]
  }

  lemma {:induction false} PartsAreNotEmpty(s: string)
    requires s != ""
    ensures "" !in Parts(s)
  {
    assert Escape(s) != "";
  }

  // ----- what is recorded, read back ----------------------------------------------------

  /** A hexadecimal digit of either case, as RFC 8259 (section 7) has it. */
  function HexValue(c: char): (n: nat)
    ensures n <= 16
  {
    if '0' <= c <= '9' then c as int - '0' as int
    else if 'a' <= c <= 'f' then c as int - 'a' as int + 10
    else if 'A' <= c <= 'F' then c as int - 'A' as int + 10
    else 16
  }

  /** The first character that a JSON string's inside spells, and how long its
      spelling is (RFC 8259, section 7, below the surrogates). */
  function Spelled(s: string): Option<(char, nat)> {
    if s == "" || s[0] == '\"' || s[0] as int < 0x20 then None
    else if s[0] != '\\' then Some((s[0], 1))
    else if |s| < 2 then None
    else
      match s[1]
      case '\"' => Some(('\"', 2))
      case '\\' => Some(('\\', 2))
      case '/' => Some(('/', 2))
      case 'b' => Some((8 as char, 2))
      case 'f' => Some((12 as char, 2))
      case 'n' => Some(('\n', 2))
      case 'r' => Some(('\r', 2))
      case 't' => Some(('\t', 2))
      case 'u' =>
        if |s| < 6 then None
        else
          var a, b, c, d := HexValue(s[2]), HexValue(s[3]), HexValue(s[4]), HexValue(s[5]);
          var code := ((a * 16 + b) * 16 + c) * 16 + d;
          if a < 16 && b < 16 && c < 16 && d < 16 && code < 0xd800 then Some((code as char, 6)) else None
      case _ => None
  }

  /** The text that a JSON string's inside spells. */
  function Unescape(s: string): Option<string>
    decreases |s|
  {
    if s == "" then Some("")
    else
      match Spelled(s)
      case None => None
      case Some((c, n)) =>
        if n > |s| || n == 0 then None
        else
          match Unescape(s[n..])
          case None => None
          case Some(rest) => Some([c] + rest)
  }

  lemma SpelledIs(c: char, rest: string)
    ensures Spelled(EscapeChar(c) + rest) == Some((c, |EscapeChar(c)|)) && 1 <= |EscapeChar(c)|
    ensures forall d :: d in EscapeChar(c) && 'A' <= d <= 'F' ==> d == c
  {
    var s := EscapeChar(c) + rest;
    assert s[0] == EscapeChar(c)[0];
    if c as int < 0x20 && |EscapeChar(c)| == 6 {
      HexIsRead(c as int / 16);
      HexIsRead(c as int % 16);
      assert s[2] == '0' && s[3] == '0' && s[4] == Hex(c as int / 16) && s[5] == Hex(c as int % 16);
    }
  }

  lemma HexIsRead(n: nat)
    requires n < 16
    ensures HexValue(Hex(n)) == n
  {
  }

  /** No spelling of a character is shorter than the one recorded. */
  lemma SpellingIsShortest(c: char, t: string)
    requires Spelled(t) == Some((c, |t|))
    ensures |EscapeChar(c)| <= |t|
  {
  }

  /** A value's JSON spelling is what a JSON reader reads as that value; its
      hexadecimal digits are small letters. */
  lemma {:induction false} JsonSpellingIsReadBack(s: string)
    ensures Unescape(Escape(s)) == Some(s)
    ensures forall c :: c in Escape(s) && 'A' <= c <= 'F' ==> c in s
  {
    hide Spelled, EscapeChar;
    if s != "" {
      JsonSpellingIsReadBack(s[1..]);
      SpelledIs(s[0], Escape(s[1..]));
      var e := EscapeChar(s[0]);
      assert Escape(s)[|e|..] == Escape(s[1..]);
      assert s == [s[0]] + s[1..];
    }
  }

  /** The lines with what ended each of them. */
  function Rejoined(lines: seq<string>, ends: seq<string>): string
    requires |lines| == |ends|
  {
    if lines == [] then "" else lines[0] + ends[0] + Rejoined(lines[1..], ends[1..])
  }

  /** How one line of a text may end: only the last one at the text's end. */
  predicate EndsLine(line: string, end: string, last: bool) {
    && '\n' !in line
    && (end == "\r\n" || (end == "\n" && (line == "" || line[|line| - 1] != '\r')) || (end == "" && last && line != ""))
  }

  lemma {:induction false} FirstLineIs(s: string)
    ensures var (line, rest) := FirstLine(s);
            '\n' !in line && s == line + (if |line| < |s| then "\n" else "") + rest && (|line| == |s| ==> rest == "")
  {
    if s != "" && s[0] != '\n' { FirstLineIs(s[1..]); }
  }

  lemma FirstOfLines(s: string) returns (first: string, end: string, rest: string)
    requires s != ""
    ensures Lines(s) == [first] + Lines(rest) && s == first + end + rest && |rest| < |s|
    ensures EndsLine(first, end, rest == "")
  {
    FirstLineIs(s);
    first, rest := FirstLine(s).0, FirstLine(s).1;
    end := if |first| == |s| then "" else "\n";
    if end == "\n" && first != "" && first[|first| - 1] == '\r' {
      assert first == first[..|first| - 1] + "\r";
      first, end := first[..|first| - 1], "\r\n";
    }
  }

  /** The lines are the text, cut at its line ends. */
  lemma {:induction false} LinesAreTheText(s: string) returns (ends: seq<string>)
    ensures |ends| == |Lines(s)| && Rejoined(Lines(s), ends) == s
    ensures forall i :: 0 <= i < |ends| ==> EndsLine(Lines(s)[i], ends[i], i == |ends| - 1)
    decreases |s|
  {
    ends := [];
    if s != "" {
      var first, end, rest := FirstOfLines(s);
      var more := LinesAreTheText(rest);
      hide Lines, EndsLine;
      ends := [end] + more;
      assert ends[1..] == more && Lines(s)[1..] == Lines(rest);
      assert rest == "" ==> Lines(rest) == [] by { NoLines(); }
    }
  }

  lemma NoLines()
    ensures Lines("") == []
  {
  }

  // ----- the list --------------------------------------------------------------------------

  predicate LongestFirst(list: seq<string>) { forall i, j :: 0 <= i < j < |list| ==> Length(list[i]) >= Length(list[j]) }

  predicate NoRepeats(list: seq<string>) { forall i, j :: 0 <= i < j < |list| ==> list[i] != list[j] }

  /** Behind every value that is at least as long: a stable insertion. */
  function Insert(list: seq<string>, v: string): (r: seq<string>)
    ensures |r| == |list| + 1 && forall x :: x in r <==> x in list || x == v
    decreases |list|
  {
    if list == [] || Length(list[|list| - 1]) >= Length(v) then list + [v]
    else Insert(list[..|list| - 1], v) + [list[|list| - 1]]
  }

  lemma {:induction false} InsertKeeps(list: seq<string>, v: string)
    requires LongestFirst(list)
    ensures LongestFirst(Insert(list, v))
    ensures NoRepeats(list) && v !in list ==> NoRepeats(Insert(list, v))
    decreases |list|
  {
    hide Length;
    if list != [] && Length(list[|list| - 1]) < Length(v) {
      var before, last := list[..|list| - 1], list[|list| - 1];
      InsertKeeps(before, v);
      AppendShorter(Insert(before, v), last);
      if NoRepeats(list) && v !in list {
        LastIsNew(list);
        assert forall x :: x in before ==> x in list;
      }
    }
  }

  lemma AppendShorter(list: seq<string>, v: string)
    requires LongestFirst(list) && forall x :: x in list ==> Length(x) >= Length(v)
    ensures LongestFirst(list + [v])
    ensures NoRepeats(list) && v !in list ==> NoRepeats(list + [v])
  {
    hide Length;
  }

  lemma LastIsNew(list: seq<string>)
    requires list != [] && NoRepeats(list)
    ensures list[|list| - 1] !in list[..|list| - 1]
  {
  }

  /** Adds the values that are not recorded yet. */
  function AddAll(list: seq<string>, parts: seq<string>): seq<string> {
    if parts == [] then list
    else
      var before := AddAll(list, parts[..|parts| - 1]);
      var p := parts[|parts| - 1];
      if p in before then before else Insert(before, p)
  }

  lemma {:induction false} AddAllKeeps(list: seq<string>, parts: seq<string>)
    requires LongestFirst(list) && NoRepeats(list)
    ensures LongestFirst(AddAll(list, parts)) && NoRepeats(AddAll(list, parts))
    ensures forall x :: x in AddAll(list, parts) <==> x in list || x in parts
  {
    if parts != [] {
      AddAllKeeps(list, parts[..|parts| - 1]);
      var before := AddAll(list, parts[..|parts| - 1]);
      InsertKeeps(before, parts[|parts| - 1]);
      assert forall x :: x in parts <==> x in parts[..|parts| - 1] || x == parts[|parts| - 1];
    }
  }

  /** Sorting by falling length, stably. */
  function Sorted(list: seq<string>): seq<string> {
    if list == [] then [] else Insert(Sorted(list[..|list| - 1]), list[|list| - 1])
  }

  lemma {:induction false} SortedStays(list: seq<string>)
    requires LongestFirst(list)
    ensures Sorted(list) == list
  {
    if list != [] {
      SortedStays(list[..|list| - 1]);
    }
  }

  lemma SortedSnoc(list: seq<string>, v: string)
    ensures Sorted(list + [v]) == Insert(Sorted(list), v)
  {
    assert (list + [v])[..|list|] == list;
  }

  lemma AddNone(list: seq<string>)
    ensures AddAll(list, []) == list
  {
  }

  lemma AddOneMore(list: seq<string>, parts: seq<string>, p: string)
    ensures AddAll(list, parts + [p]) == if p in AddAll(list, parts) then AddAll(list, parts) else Insert(AddAll(list, parts), p)
    ensures forall v :: v in AddAll(list, parts + [p]) <==> v in AddAll(list, parts) || v == p
  {
    assert (parts + [p])[..|parts|] == parts;
  }

  // ----- applying -----------------------------------------------------------------------

  /** The recorded values replaced one after the other. */
  function Masked(list: seq<string>, input: string): string
    requires "" !in list
  {
    if list == [] then input
    else
      var out, v := Masked(list[..|list| - 1], input), list[|list| - 1];
      if Contains(out, v) then Replace(out, v) else out
  }

  /** A start of the output that no mask can end in is a start of the input. */
  lemma {:induction false} PrefixSurvives(s: string, v: string, p: string)
    requires v != "" && p <= Replace(s, v)
    requires p != "" ==> p[|p| - 1] != '*' && !Contains(p, MASK)
    ensures p <= s
    decreases |s|
  {
    if p != "" {
      assert p[0] == Replace(s, v)[0];
      if s != "" && v <= s {
        MaskIsNoStart(p, Replace(s[|v|..], v));
      } else if s != "" {
        assert Replace(s, v)[1..] == Replace(s[1..], v);
        if Contains(p[1..], MASK) { Shift(p, 1, MASK); }
        PrefixSurvives(s[1..], v, p[1..]);
        assert s == [s[0]] + s[1..] && p == [p[0]] + p[1..];
      }
    }
  }

  lemma MaskIsNoStart(p: string, rest: string)
    requires p != "" && p[|p| - 1] != '*' && !Contains(p, MASK)
    ensures !(p <= MASK + rest)
  {
    if p <= MASK + rest {
      assert |p| > 3;
      assert p[..3] == MASK;
      StartIsContained(p, MASK);
    }
  }

  lemma ReplaceStep(s: string, v: string)
    requires v != ""
    ensures s == "" ==> Replace(s, v) == ""
    ensures s != "" && v <= s ==> Replace(s, v) == MASK + Replace(s[|v|..], v)
    ensures s != "" && !(v <= s) ==> Replace(s, v) == [s[0]] + Replace(s[1..], v)
  {
  }

  /** An occurrence behind `a` is one in what follows `a`. */
  lemma AtLater(a: string, b: string, k: nat, p: string)
    requires |a| <= k && At(a + b, k, p)
    ensures At(b, k - |a|, p)
  {
    assert (a + b)[k..k + |p|] == b[k - |a|..k - |a| + |p|];
  }

  lemma NotInsideMask(b: string, k: nat, p: string)
    requires p != "" && p[0] != '*' && At(MASK + b, k, p)
    ensures k >= |MASK|
  {
    assert (MASK + b)[k..k + |p|][0] == (MASK + b)[k] && p[0] in p;
  }

  lemma AtStart(r: string, p: string)
    requires At(r, 0, p)
    ensures p <= r
  {
  }

  /** Replacing one value brings in no occurrence of a text no mask can spell a
      part of: each one in the output stands in the input, beside what was replaced. */
  lemma {:induction false} NothingNewAppears(s: string, v: string, p: string, k: nat)
    requires v != "" && Maskable(p) && At(Replace(s, v), k, p)
    ensures Contains(s, p)
    decreases |s|
  {
    hide Replace, Contains, At;
    ReplaceStep(s, v);
    if s == "" {
      EmptyHasNone(k, p);
    } else if v <= s {
      NotInsideMask(Replace(s[|v|..], v), k, p);
      AtLater(MASK, Replace(s[|v|..], v), k, p);
      NothingNewAppears(s[|v|..], v, p, k - 3);
      Shift(s, |v|, p);
    } else if k == 0 {
      AtStart(Replace(s, v), p);
      PrefixSurvives(s, v, p);
      StartIsContained(s, p);
    } else {
      AtLater([s[0]], Replace(s[1..], v), k, p);
      NothingNewAppears(s[1..], v, p, k - 1);
      Shift(s, 1, p);
    }
  }

  lemma EmptyHasNone(k: nat, p: string)
    requires p != ""
    ensures !At("", k, p)
  {
  }

  lemma StartIsContained(s: string, p: string)
    requires p <= s
    ensures Contains(s, p)
  {
    assert At(s, 0, p);
  }

  lemma Shift(s: string, n: nat, p: string)
    requires n <= |s| && Contains(s[n..], p)
    ensures Contains(s, p)
  {
    var k: nat :| k <= |s[n..]| && At(s[n..], k, p);
    assert s[n..][k..k + |p|] == s[n + k..n + k + |p|];
    assert At(s, n + k, p);
  }

  /** Such a value is gone after its replacement. */
  lemma {:induction false} ReplacedIsGone(s: string, v: string, k: nat)
    requires Maskable(v)
    ensures !At(Replace(s, v), k, v)
    decreases |s|
  {
    hide Replace, At;
    ReplaceStep(s, v);
    if At(Replace(s, v), k, v) {
      if s == "" {
        EmptyHasNone(k, v);
      } else if v <= s {
        NotInsideMask(Replace(s[|v|..], v), k, v);
        AtLater(MASK, Replace(s[|v|..], v), k, v);
        ReplacedIsGone(s[|v|..], v, k - 3);
      } else if k == 0 {
        AtStart(Replace(s, v), v);
        PrefixSurvives(s, v, v);
      } else {
        AtLater([s[0]], Replace(s[1..], v), k, v);
        ReplacedIsGone(s[1..], v, k - 1);
      }
    }
  }

  /** What does not occur in the input does not occur in the output. */
  lemma {:induction false} MaskedBringsNothing(list: seq<string>, input: string, p: string)
    requires "" !in list && Maskable(p) && !Contains(input, p)
    ensures !Contains(Masked(list, input), p)
  {
    if list != [] {
      MaskedBringsNothing(list[..|list| - 1], input, p);
      var out, v := Masked(list[..|list| - 1], input), list[|list| - 1];
      if Contains(Replace(out, v), p) {
        var k: nat :| k <= |Replace(out, v)| && At(Replace(out, v), k, p);
        NothingNewAppears(out, v, p, k);
      }
    }
  }

  /** No such recorded value remains, although later replacements rewrite what
      earlier ones put out. */
  lemma {:induction false} NoRecordedValueRemains(list: seq<string>, input: string, v: string)
    requires "" !in list && v in list && Maskable(v)
    ensures !Contains(Masked(list, input), v)
  {
    var before, last := list[..|list| - 1], list[|list| - 1];
    var out := Masked(before, input);
    if v == last {
      if Contains(out, v) && Contains(Replace(out, v), v) {
        var k: nat :| k <= |Replace(out, v)| && At(Replace(out, v), k, v);
        ReplacedIsGone(out, v, k);
        assert false;
      }
    } else {
      NoRecordedValueRemains(before, input, v);
      if Contains(Replace(out, last), v) {
        var k: nat :| k <= |Replace(out, last)| && At(Replace(out, last), k, v);
        NothingNewAppears(out, last, v, k);
      }
    }
  }

  /** A text that holds no recorded value is left as it is. */
  lemma CleanTextIsUnchanged(list: seq<string>, input: string)
    requires "" !in list && forall v :: v in list ==> !Contains(input, v)
    ensures Masked(list, input) == input
  {
    OnlyMasksAreThere(list, input);
  }

  /** Nor does it matter if a mask is recorded itself. */
  lemma {:induction false} OnlyMasksAreThere(list: seq<string>, input: string)
    requires "" !in list && forall v :: v in list ==> v == MASK || !Contains(input, v)
    ensures Masked(list, input) == input
  {
    if list != [] {
      OnlyMasksAreThere(list[..|list| - 1], input);
      MaskedMaskIsItself(input);
    }
  }

  lemma {:induction false} MaskedMaskIsItself(s: string)
    ensures Replace(s, MASK) == s
    decreases |s|
  {
    if s != "" {
      if MASK <= s {
        MaskedMaskIsItself(s[3..]);
        assert s == MASK + s[3..];
      } else {
        MaskedMaskIsItself(s[1..]);
      }
    }
  }

  // ----- exactly which values -------------------------------------------------------------

  /** What a list of recorded values is, see `MaskList`. */
  predicate IsList(list: seq<string>) { LongestFirst(list) && NoRepeats(list) && "" !in list }

  /** Whatever else is recorded, no masked text holds `p`. */
  ghost predicate AlwaysGoes(p: string) {
    forall list, input :: IsList(list) && p in list ==> !Contains(Masked(list, input), p)
  }

  /** Whatever else is recorded that always goes, masking twice is masking once. */
  ghost predicate MaskedOnce(p: string) {
    forall list, input :: IsList(list) && p in list && (forall v :: v in list && v != p ==> Maskable(v))
                          ==> Masked(list, Masked(list, input)) == Masked(list, input)
  }

  /** A text whose mask spells `p`, although `p` was looked for first: with `c`
      recorded too, it comes out as what the second result names. */
  function Spelling(p: string, c: char): (r: (string, string))
    requires p != "" && !Maskable(p)
  {
    if p[0] == '*' then ([c] + p[1..], MASK + p[1..])
    else if p[|p| - 1] == '*' then (p[..|p| - 1] + [c], p[..|p| - 1] + MASK)
    else
      var k := MaskAt(p, 0);
      (p[..k] + [c] + p[k + 3..], p)
  }

  /** Where a mask begins. */
  function MaskAt(p: string, from: nat): (k: nat)
    requires exists j :: from <= j <= |p| && At(p, j, MASK)
    ensures At(p, k, MASK)
    decreases |p| - from
  {
    if At(p, from, MASK) then from else MaskAt(p, from + 1)
  }

  lemma {:induction false} NothingToReplace(s: string, v: string)
    requires v != "" && !Contains(s, v)
    ensures Replace(s, v) == s
    decreases |s|
  {
    hide Contains;
    if s != "" {
      if v <= s { StartIsContained(s, v); }
      if Contains(s[1..], v) { Shift(s, 1, v); }
      NothingToReplace(s[1..], v);
    }
  }

  lemma LacksCharacter(s: string, c: char)
    requires c !in s
    ensures !Contains(s, [c])
  {
    if Contains(s, [c]) { ContainedCharacterIsIn(s, c); }
  }

  /** Replacing the one character `c`. */
  lemma {:induction false} ReplaceCharacter(a: string, c: char, b: string)
    requires c !in a && c !in b
    ensures Replace(a + [c] + b, [c]) == a + MASK + b
    decreases |a|
  {
    if a == "" {
      assert a + [c] + b == [c] + b && ([c] + b)[1..] == b;
      LacksCharacter(b, c);
      NothingToReplace(b, [c]);
    } else {
      assert a[0] in a && (a + [c] + b)[0] == a[0];
      assert (a + [c] + b)[1..] == a[1..] + [c] + b;
      ReplaceCharacter(a[1..], c, b);
      assert a + MASK + b == [a[0]] + (a[1..] + MASK + b);
    }
  }

  /** The text as `a`, `c`, `b`, and that it holds no `p` itself. */
  lemma SpellingParts(p: string, c: char) returns (a: string, b: string)
    requires p != "" && !Maskable(p) && c !in p
    ensures Spelling(p, c).0 == a + [c] + b && Spelling(p, c).1 == a + MASK + b && c !in a && c !in b
    ensures !Contains(a + [c] + b, p) && Contains(a + MASK + b, p) && |a + [c] + b| <= |p|
  {
    if p[0] == '*' {
      a, b := "", p[1..];
      assert [c] + p[1..] == a + [c] + b && MASK + p[1..] == a + MASK + b;
      assert (a + MASK + b)[2..2 + |p|] == p;
      assert At(a + MASK + b, 2, p);
    } else if p[|p| - 1] == '*' {
      a, b := p[..|p| - 1], "";
      assert p[..|p| - 1] + [c] == a + [c] + b && p[..|p| - 1] + MASK == a + MASK + b;
      assert (a + MASK + b)[0..|p|] == p;
      assert At(a + MASK + b, 0, p);
    } else {
      var k := MaskAt(p, 0);
      a, b := p[..k], p[k + 3..];
      assert p[k..k + 3] == MASK;
      assert p == a + MASK + b;
      StartIsContained(p, p);
    }
    TooShort(a + [c] + b, c, |a|, p);
  }

  /** No text of at most its length that holds a foreign character holds `p`. */
  lemma TooShort(s: string, c: char, k: nat, p: string)
    requires k < |s| <= |p| && s[k] == c && c !in p
    ensures !Contains(s, p)
  {
    assert At(s, 0, p) ==> s == p;
  }

  /** What the list `[p, c]` makes of it. */
  lemma SpelledOut(p: string, c: char)
    requires p != "" && !Maskable(p) && c !in p
    ensures Masked([p, [c]], Spelling(p, c).0) == Spelling(p, c).1 && Contains(Spelling(p, c).1, p) && c !in Spelling(p, c).1
  {
    var a, b := SpellingParts(p, c);
    MaskedTwo(p, [c], Spelling(p, c).0);
    ReplaceCharacter(a, c, b);
    assert At(a + [c] + b, |a|, [c]);
    if c == '*' { StarIsIn(p); }
  }

  lemma StarIsIn(p: string)
    requires p != "" && !Maskable(p)
    ensures '*' in p
  {
    if p[0] != '*' && p[|p| - 1] != '*' {
      var k := MaskAt(p, 0);
      assert p[k..k + 3][0] == '*';
    }
  }

  /** A character a text lacks, that is not longer than it. */
  lemma SpareCharacter(p: string, c: char) returns (d: char)
    requires p != "" && c !in p
    ensures d !in p && Length(p) >= Length([d]) && (d == c || '0' <= d <= '3')
  {
    if '0' !in p { d := '0'; }
    else if '1' !in p { d := '1'; }
    else if '2' !in p { d := '2'; }
    else if '3' !in p { d := '3'; }
    else {
      d := c;
      FourCharacters(p);
    }
    LengthOfOne(d);
    NotEmptyHasLength(p);
  }

  lemma LengthOfOne(d: char)
    ensures Length([d]) == Bytes(d) <= 4
  {
    assert [d][1..] == "";
  }

  lemma NotEmptyHasLength(p: string)
    requires p != ""
    ensures Length(p) >= 1
  {
  }

  lemma {:induction false} LengthAtLeast(p: string, chars: set<char>)
    requires forall c :: c in chars ==> c in p
    ensures Length(p) >= |chars|
    decreases |p|
  {
    if p == "" {
      assert chars == {};
    } else {
      forall c | c in chars - {p[0]} ensures c in p[1..] {
        assert p == [p[0]] + p[1..];
      }
      LengthAtLeast(p[1..], chars - {p[0]});
      assert |chars - {p[0]}| >= |chars| - 1 by {
        if p[0] !in chars { assert chars - {p[0]} == chars; }
      }
    }
  }

  lemma FourCharacters(p: string)
    requires '0' in p && '1' in p && '2' in p && '3' in p
    ensures Length(p) >= 4
  {
    var four := {'0', '1', '2', '3'};
    assert |four| == 4;
    LengthAtLeast(p, four);
  }

  lemma TwoMakeAList(p: string, d: char)
    requires p != "" && d !in p && Length(p) >= Length([d])
    ensures IsList([p, [d]])
  {
    assert [d][0] == d;
    assert p != [d];
  }

  /** A recorded value always goes, if and only if it neither begins nor ends
      with a star and holds no mask. (Of texts that lack some character; `c` is one.) */
  lemma AlwaysGoesIffMaskable(p: string, c: char)
    requires p != "" && c !in p
    ensures AlwaysGoes(p) <==> Maskable(p)
  {
    if Maskable(p) {
      forall list, input | IsList(list) && p in list ensures !Contains(Masked(list, input), p) {
        NoRecordedValueRemains(list, input, p);
      }
    } else {
      var d := SpareCharacter(p, c);
      TwoMakeAList(p, d);
      SpelledOut(p, d);
      hide Masked, Contains, IsList, Maskable;
      assert p in [p, [d]];
      assert Contains(Masked([p, [d]], Spelling(p, d).0), p);
    }
  }

  /** The first occurrence is replaced by something else, unless it is a mask. */
  lemma {:induction false} ReplacedDiffers(s: string, p: string)
    requires p != "" && p != MASK && Contains(s, p)
    ensures Replace(s, p) != s
    decreases |s|
  {
    if p <= s {
      ReplaceStep(s, p);
      if |p| == 3 {
        assert s[..3] == p && (MASK + Replace(s[3..], p))[..3] == MASK;
      } else {
        ReplaceLength(s[|p|..], p);
        assert |s[|p|..]| == |s| - |p|;
        assert |Replace(s, p)| == 3 + |Replace(s[|p|..], p)|;
      }
    } else {
      var k: nat :| k <= |s| && At(s, k, p);
      assert k > 0;
      AtLater([s[0]], s[1..], k, p) by { assert [s[0]] + s[1..] == s; }
      assert Contains(s[1..], p);
      ReplacedDiffers(s[1..], p);
      assert Replace(s, p)[1..] == Replace(s[1..], p);
    }
  }

  /** A longer value only shortens, a shorter one only lengthens. */
  lemma {:induction false} ReplaceLength(s: string, p: string)
    requires p != ""
    ensures |p| > 3 ==> |Replace(s, p)| <= |s|
    ensures |p| < 3 ==> |Replace(s, p)| >= |s|
    decreases |s|
  {
    if s != "" {
      ReplaceLength(if p <= s then s[|p|..] else s[1..], p);
    }
  }

  /** No character comes in but the star. */
  lemma {:induction false} ReplaceBringsStars(s: string, p: string, d: char)
    requires p != "" && d !in s && d != '*'
    ensures d !in Replace(s, p)
    decreases |s|
  {
    if s != "" {
      ReplaceBringsStars(if p <= s then s[|p|..] else s[1..], p, d);
      if p <= s {
        assert forall i :: 0 <= i < |s[|p|..]| ==> s[|p|..][i] in s;
      }
    }
  }

  /** Masking twice is masking once, if and only if the value always goes or is
      the mask itself. */
  lemma MaskedOnceIff(p: string, c: char)
    requires p != "" && c !in p
    ensures MaskedOnce(p) <==> Maskable(p) || p == MASK
  {
    if Maskable(p) || p == MASK {
      forall list, input | IsList(list) && p in list && (forall v :: v in list && v != p ==> Maskable(v))
        ensures Masked(list, Masked(list, input)) == Masked(list, input)
      {
        MaskingIsIdempotent(list, input);
      }
    } else {
      var d := SpareCharacter(p, c);
      TwoMakeAList(p, d);
      SpelledOut(p, d);
      SpelledTwice(p, d);
      CharacterIsMaskable(p, d);
      var list := [p, [d]];
      hide Masked, Contains, IsList, Maskable;
      assert p in list && forall v :: v in list && v != p ==> v == [d];
    }
  }

  lemma CharacterIsMaskable(p: string, d: char)
    requires p != "" && !Maskable(p) && d !in p
    ensures Maskable([d])
  {
    StarIsIn(p);
  }

  lemma SpelledTwice(p: string, d: char)
    requires p != "" && p != MASK && !Maskable(p) && d !in p
    ensures Masked([p, [d]], Spelling(p, d).1) != Spelling(p, d).1
  {
    var out := Spelling(p, d).1;
    SpelledOut(p, d);
    MaskedTwo(p, [d], out);
    StarIsIn(p);
    ReplacedDiffers(out, p);
    ReplaceBringsStars(out, p, d);
    LacksCharacter(Replace(out, p), d);
  }

  /** Masking twice is masking once, when every recorded value always goes or is a mask. */
  lemma MaskingIsIdempotent(list: seq<string>, input: string)
    requires "" !in list && forall v :: v in list ==> Maskable(v) || v == MASK
    ensures Masked(list, Masked(list, input)) == Masked(list, input)
  {
    forall v | v in list ensures v == MASK || !Contains(Masked(list, input), v) {
      if v != MASK {
        NoRecordedValueRemains(list, input, v);
      }
    }
    OnlyMasksAreThere(list, Masked(list, input));
  }

  lemma MaskedTwo(v: string, w: string, input: string)
    requires v != "" && w != ""
    ensures var out := if Contains(input, v) then Replace(input, v) else input;
            Masked([v, w], input) == if Contains(out, w) then Replace(out, w) else out
  {
    assert [v, w][..1] == [v] && [v][..0] == [];
    assert Masked([], input) == input;
    assert Masked([v], input) == if Contains(input, v) then Replace(input, v) else input;
  }

  lemma ContainedCharacterIsIn(s: string, c: char)
    requires Contains(s, [c])
    ensures c in s
  {
    var k: nat :| k <= |s| && At(s, k, [c]);
    assert s[k] == s[k..k + 1][0];
  }

  // ----- any sequence of values --------------------------------------------------------------

  /** The list after `add` was called with each of `secrets`. */
  function Recorded(secrets: seq<string>): seq<string> {
    if secrets == [] then []
    else
      var before, s := Recorded(secrets[..|secrets| - 1]), secrets[|secrets| - 1];
      if s == "" then before else AddAll(before, Parts(s))
  }

  lemma {:induction false} RecordedIsValid(secrets: seq<string>)
    ensures LongestFirst(Recorded(secrets)) && NoRepeats(Recorded(secrets)) && "" !in Recorded(secrets)
    ensures forall s, p :: s in secrets && s != "" && p in Parts(s) ==> p in Recorded(secrets)
  {
    if secrets != [] {
      var before, s := secrets[..|secrets| - 1], secrets[|secrets| - 1];
      RecordedIsValid(before);
      assert forall x :: x in secrets <==> x in before || x == s;
      if s != "" {
        AddAllKeeps(Recorded(before), Parts(s));
        PartsAreNotEmpty(s);
      }
    }
  }

  /** A text that recording `s` must mask: the value, one of its long lines if
      it has several, or its JSON spelling. */
  predicate Reveals(x: string, s: string) {
    || x == s
    || x == Escape(s)
    || ('\n' in s && |x| >= 8 && exists l :: l in Lines(s) && x == Trim(l))
  }

  /** What is recorded is exactly that, and nothing else is masked. */
  lemma {:induction false} RecordedIsWhatReveals(secrets: seq<string>, x: string)
    ensures x in Recorded(secrets) <==> exists s :: s in secrets && s != "" && Reveals(x, s)
  {
    hide Reveals;
    if secrets != [] {
      var before, s := secrets[..|secrets| - 1], secrets[|secrets| - 1];
      RecordedIsWhatReveals(before, x);
      RecordedIsValid(before);
      assert forall y :: y in secrets <==> y in before || y == s;
      PartsReveal(x, s);
      if s != "" { AddAllKeeps(Recorded(before), Parts(s)); }
    }
  }

  lemma PartsReveal(x: string, s: string)
    ensures x in Parts(s) <==> Reveals(x, s)
  {
  }

  lemma ContainingIsLonger(long: string, short: string)
    requires Contains(long, short) && long != short
    ensures Length(long) > Length(short)
  {
    var k: nat :| k <= |long| && At(long, k, short);
    var before, after := long[..k], long[k + |short|..];
    assert long == before + (short + after);
    hide Length, Contains, At;
    LengthOfJoin(before, short + after);
    LengthOfJoin(short, after);
    if before != "" { NotEmptyHasLength(before); }
    if after != "" { NotEmptyHasLength(after); }
    assert before == "" && after == "" ==> long == short;
  }

  /** A value that holds another one stands before it, so it is replaced as a
      whole. */
  lemma ContainingComesFirst(secrets: seq<string>, i: nat, j: nat)
    requires i < |Recorded(secrets)| && j < |Recorded(secrets)| && i != j
    requires Contains(Recorded(secrets)[i], Recorded(secrets)[j])
    ensures i < j
  {
    RecordedIsValid(secrets);
    ContainingIsLonger(Recorded(secrets)[i], Recorded(secrets)[j]);
    hide Contains, Length, Recorded;
  }

  /** After any sequence of `add` calls: neither a value, nor one of its long
      lines, nor its JSON spelling is left in a masked text, unless it holds a `*`. */
  lemma NoSecretIsLeft(secrets: seq<string>, s: string, p: string, input: string)
    requires s in secrets && s != "" && Maskable(p)
    requires p == s || p == Escape(s) || ('\n' in s && |p| >= MIN_MASKED_LINE_CHARS && exists l :: l in Lines(s) && p == Trim(l))
    ensures "" !in Recorded(secrets) && !Contains(Masked(Recorded(secrets), input), p)
  {
    RecordedIsValid(secrets);
    assert p in Parts(s);
    NoRecordedValueRemains(Recorded(secrets), input, p);
  }

  /** Whatever else is recorded, no masked text holds the secret `p`. */
  ghost predicate SecretAlwaysGoes(p: string) {
    forall secrets, input :: p in secrets && "" !in Recorded(secrets) ==> !Contains(Masked(Recorded(secrets), input), p)
  }

  /** For a value of one line this is exact: it always goes if and only if it
      neither begins nor ends with a star and holds no mask. (`c`: a character
      it lacks, printed as itself.) */
  lemma SecretAlwaysGoesIff(p: string, c: char)
    requires p != "" && '\n' !in p && c !in p && EscapeChar(c) == [c]
    ensures SecretAlwaysGoes(p) <==> Maskable(p)
  {
    if Maskable(p) {
      forall secrets, input | p in secrets && "" !in Recorded(secrets) ensures !Contains(Masked(Recorded(secrets), input), p) {
        NoSecretIsLeft(secrets, p, p, input);
      }
    } else {
      var d := PrintableSpare(p, c);
      RecordedTwo(p, d);
      SpelledOut(p, d);
      MaskedTwoOrThree(p, d);
      RecordedIsValid([p, [d]]);
      var secrets := [p, [d]];
      hide Masked, Contains, Recorded, Maskable;
      assert p in secrets && Contains(Masked(Recorded(secrets), Spelling(p, d).0), p);
    }
  }

  lemma PrintableSpare(p: string, c: char) returns (d: char)
    requires p != "" && c !in p && EscapeChar(c) == [c]
    ensures d !in p && Length(p) >= Length([d]) && EscapeChar(d) == [d]
  {
    d := SpareCharacter(p, c);
  }

  /** A JSON spelling that differs is longer, in characters and in bytes. */
  lemma {:induction false} SpellingGrows(s: string)
    ensures |Escape(s)| >= |s| && Length(Escape(s)) >= Length(s)
    ensures Escape(s) != s ==> |Escape(s)| > |s|
  {
    if s != "" {
      SpellingGrows(s[1..]);
      LengthOfJoin(EscapeChar(s[0]), Escape(s[1..]));
      EscapeGrows(s[0]);
    }
  }

  lemma EscapeGrows(c: char)
    ensures Length(EscapeChar(c)) >= Bytes(c)
  {
    var e := EscapeChar(c);
    assert e[1..] == [] || Length(e) == Bytes(e[0]) + Length(e[1..]);
  }

  lemma {:induction false} LengthOfJoin(a: string, b: string)
    ensures Length(a + b) == Length(a) + Length(b)
  {
    if a == "" {
      assert a + b == b;
    } else {
      assert (a + b)[1..] == a[1..] + b;
      LengthOfJoin(a[1..], b);
    }
  }

  /** What the two calls record. */
  function TwoOrThree(p: string, d: char): seq<string> {
    if Escape(p) == p then [p, [d]] else [Escape(p), p, [d]]
  }

  lemma RecordedOne(p: string)
    requires p != "" && '\n' !in p
    ensures Recorded([p]) == if Escape(p) == p then [p] else [Escape(p), p]
  {
    hide Length, Escape;
    var e := Escape(p);
    SpellingGrows(p);
    assert [p][..0] == [] && Recorded([p]) == AddAll([], Parts(p));
    hide Recorded;
    AddNone([]);
    if e == p {
      assert Parts(p) == [] + [p];
      AddOneMore([], [], p);
    } else {
      assert Parts(p) == [] + [e] + [p];
      AddOneMore([], [], e);
      AddOneMore([], [] + [e], p);
    }
  }

  lemma RecordedTwo(p: string, d: char)
    requires p != "" && '\n' !in p && d !in p && Length(p) >= Length([d]) && EscapeChar(d) == [d]
    ensures Recorded([p, [d]]) == TwoOrThree(p, d)
  {
    hide Length, Escape, Parts, Recorded, Insert, AddAll;
    SpellingGrows(p);
    RecordedOne(p);
    RecordedSnoc(p, [d]);
    PartsOfOne(d);
    var before := Recorded([p]);
    AddNone(before);
    AddOneMore(before, [], [d]);
    assert [d] !in before by { assert [d][0] == d && p != [d]; }
    InsertLast(before, [d]);
  }

  lemma RecordedSnoc(p: string, s: string)
    requires s != ""
    ensures Recorded([p, s]) == AddAll(Recorded([p]), Parts(s))
  {
    hide Parts, AddAll;
    assert [p, s][..1] == [p];
  }

  lemma PartsOfOne(d: char)
    requires EscapeChar(d) == [d]
    ensures Parts([d]) == [] + [[d]]
  {
    assert [d][1..] == "" && Escape([d]) == [d];
    assert d != '\n';
  }

  lemma InsertLast(list: seq<string>, v: string)
    requires list != [] && Length(list[|list| - 1]) >= Length(v)
    ensures Insert(list, v) == list + [v]
  {
  }

  lemma MaskedTwoOrThree(p: string, d: char)
    requires p != "" && !Maskable(p) && d !in p
    ensures "" !in TwoOrThree(p, d)
    ensures Masked(TwoOrThree(p, d), Spelling(p, d).0) == Masked([p, [d]], Spelling(p, d).0)
  {
    var e, input := Escape(p), Spelling(p, d).0;
    var a, b := SpellingParts(p, d);
    SpellingGrows(p);
    if e != p {
      assert !Contains(input, e);
      assert [e, p, [d]][..2] == [e, p] && [e, p][..1] == [e] && [e][..0] == [];
      assert Masked([], input) == input;
      assert Masked([e], input) == input;
      MaskedTwo(p, [d], input);
    }
  }

  // ----- in place -------------------------------------------------------------------------

  /** Appends the values that are not listed yet. */
  method Push(list: seq<string>, parts: seq<string>) returns (more: seq<string>)
    requires LongestFirst(list)
    ensures Sorted(more) == AddAll(list, parts)
  {
    hide LongestFirst, Sorted, AddAll, Insert;
    SortedStays(list);
    AddNone(list);
    more := list;
    for i := 0 to |parts|
      invariant Sorted(more) == AddAll(list, parts[..i])
      invariant forall v :: v in more <==> v in AddAll(list, parts[..i])
    {
      assert parts[..i + 1] == parts[..i] + [parts[i]];
      AddOneMore(list, parts[..i], parts[i]);
      if parts[i] !in more {
        SortedSnoc(more, parts[i]);
        more := more + [parts[i]];
      }
    }
    assert parts[..|parts|] == parts;
  }

  class MaskList {
    var list: seq<string>

    ghost predicate Valid()
      reads this
    {
      LongestFirst(list) && NoRepeats(list) && "" !in list
    }

    constructor ()
      ensures Valid() && list == []
    {
      list := [];
    }

    /** Records a value, its long lines and its JSON spelling; an empty one is
        ignored. */
    method Add(secret: string)
      requires Valid()
      modifies this
      ensures Valid()
      ensures list == if secret == "" then old(list) else AddAll(old(list), Parts(secret))
      ensures forall v :: v in list <==> v in old(list) || (secret != "" && v in Parts(secret))
    {
      if secret == "" {
        return;
      }
      var parts := Parts(secret);
      PartsAreNotEmpty(secret);
      AddAllKeeps(list, parts);
      var more := Push(list, parts);
      list := Sorted(more);
    }

    method Apply(input: string) returns (out: string)
      requires Valid()
      ensures out == Masked(list, input)
    {
      out := input;
      for i := 0 to |list|
        invariant out == Masked(list[..i], input)
      {
        assert list[..i + 1][..i] == list[..i];
        out := if Contains(out, list[i]) then Replace(out, list[i]) else out;
      }
      assert list[..|list|] == list;
    }
  }
}
