/** The memory files (qi_agent/storage/memory_store.py): entries separated by a section sign,
    parsed on reading, rendered and capped on writing. */
module Memory {
  import opened Basics

  const DELIMITER: char := '§'
  const MEMORY_CHAR_LIMIT: nat := 2200
  const USER_CHAR_LIMIT: nat := 1375

  // ---- Texts -----------------------------------------------------------------------------------

  /** The characters that `strip` removes. */
  predicate IsSpace(c: char) {
    var n := c as int;
    (9 <= n <= 13) || (0x1c <= n <= 0x20) || n == 0x85 || n == 0xa0 || n == 0x1680
    || (0x2000 <= n <= 0x200a) || n == 0x2028 || n == 0x2029 || n == 0x202f || n == 0x205f
    || n == 0x3000
  }

  predicate Blank(s: string) { forall c :: c in s ==> IsSpace(c) }

  function StripLeft(s: string): (r: string)
    ensures |r| <= |s|
  {
    if s != "" && IsSpace(s[0]) then StripLeft(s[1..]) else s
  }

  function StripRight(s: string): (r: string)
    ensures |r| <= |s|
  {
    if s != "" && IsSpace(s[|s| - 1]) then StripRight(s[..|s| - 1]) else s
  }

  function Strip(s: string): (r: string)
    ensures |r| <= |s|
  {
    StripRight(StripLeft(s))
  }

  /** `split` at every delimiter. */
  function Split(s: string): (r: seq<string>)
    ensures |r| >= 1
  {
    if s == "" then [""]
    else
      var tail := Split(s[1..]);
      if s[0] == DELIMITER then [""] + tail else [[s[0]] + tail[0]] + tail[1..]
  }

  function Stripped(pieces: seq<string>): seq<string> {
    if pieces == [] then []
    else (if Strip(pieces[0]) == "" then [] else [Strip(pieces[0])]) + Stripped(pieces[1..])
  }

  /** `_parse_entries`. */
  function Parse(content: string): seq<string> { Stripped(Split(content)) }

  /** Each entry on a line of its own, every line with its delimiter and its newline. */
  function Lines(entries: seq<string>): string {
    if entries == [] then "" else "§ " + entries[0] + "\n" + Lines(entries[1..])
  }

  function Joined(entries: seq<string>): string {
    if entries == [] then ""
    else if |entries| == 1 then entries[0]
    else entries[0] + "\n§ " + Joined(entries[1..])
  }

  /** What is written, before the cap and without the last newline. */
  function Rendered(entries: seq<string>): string { "§ " + Joined(entries) }

  /** Text files are read with universal newlines. */
  function ReadBack(s: string): (r: string)
    ensures |r| <= |s| && '\r' !in r
    ensures '\r' !in s ==> r == s
    ensures DELIMITER !in s ==> DELIMITER !in r
  {
    if s == "" then ""
    else if s[0] == '\r' then
      "\n" + ReadBack(if |s| > 1 && s[1] == '\n' then s[2..] else s[1..])
    else [s[0]] + ReadBack(s[1..])
  }

  function Entries(file: string): seq<string> { Parse(ReadBack(file)) }

  // ---- The operations ------------------------------------------------------------------------

  function Capped(s: string, limit: nat): string { if |s| > limit then s[..limit] else s }

  function Added(file: string, text: string, limit: nat): string {
    var entry := Strip(text);
    if entry == "" || entry in Entries(file) then file
    else Capped(Rendered(Entries(file) + [entry]), limit) + "\n"
  }

  function Differs(t: string): string -> bool { e => e != t }

  function Without(entries: seq<string>, text: string): seq<string> {
    Filter(entries, Differs(Strip(text)))
  }

  function Removed(file: string, text: string): string {
    var rest := Without(Entries(file), text);
    if rest == [] then "" else Rendered(rest) + "\n"
  }

  class MemoryStore {
    var memory: string
    var user: string

    constructor ()
      ensures memory == "" && user == ""
    {
      memory, user := "", "";
    }

    method AddMemory(text: string, toUser: bool)
      modifies this
      ensures memory == if toUser then old(memory) else Added(old(memory), text, MEMORY_CHAR_LIMIT)
      ensures user == if toUser then Added(old(user), text, USER_CHAR_LIMIT) else old(user)
    {
      var entry := Strip(text);
      if entry == "" {
        return;
      }
      var entries := Entries(if toUser then user else memory);
      if entry in entries {
        return;
      }
      var rendered := Rendered(entries + [entry]);
      var limit := if toUser then USER_CHAR_LIMIT else MEMORY_CHAR_LIMIT;
      if |rendered| > limit {
        rendered := rendered[..limit];
      }
      if toUser {
        user := rendered + "\n";
      } else {
        memory := rendered + "\n";
      }
    }

    method RemoveMemory(text: string, fromUser: bool)
      modifies this
      ensures memory == if fromUser then old(memory) else Removed(old(memory), text)
      ensures user == if fromUser then Removed(old(user), text) else old(user)
    {
      var rest := Without(Entries(if fromUser then user else memory), text);
      var content := if rest == [] then "" else Rendered(rest) + "\n";
      if fromUser {
        user := content;
      } else {
        memory := content;
      }
    }
  }

  // ---- Stripping and splitting ----------------------------------------------------------------

  /** An entry as parsing yields it. */
  predicate Entry(e: string) { e != "" && Strip(e) == e && DELIMITER !in e && '\r' !in e }

  lemma {:induction false} StripLeftBlank(a: string, s: string)
    requires Blank(a)
    ensures StripLeft(a + s) == StripLeft(s)
  {
    if a == "" {
      assert a + s == s;
    } else {
      assert (a + s)[1..] == a[1..] + s;
      StripLeftBlank(a[1..], s);
    }
  }

  lemma {:induction false} StripRightBlank(s: string, b: string)
    requires Blank(b)
    ensures StripRight(s + b) == StripRight(s)
  {
    if b == "" {
      assert s + b == s;
    } else {
      assert (s + b)[..|s + b| - 1] == s + b[..|b| - 1];
      StripRightBlank(s, b[..|b| - 1]);
    }
  }

  lemma {:induction false} StripLeftAppend(s: string, b: string)
    requires Blank(b)
    ensures StripRight(StripLeft(s + b)) == StripRight(StripLeft(s))
  {
    if s == "" {
      assert s + b == b && b + "" == b;
      StripLeftBlank(b, "");
    } else if IsSpace(s[0]) {
      assert (s + b)[1..] == s[1..] + b;
      StripLeftAppend(s[1..], b);
    } else {
      StripRightBlank(s, b);
    }
  }

  /** Surrounding blanks do not matter. */
  lemma {:induction false} StripAround(a: string, s: string, b: string)
    requires Blank(a) && Blank(b)
    ensures Strip(a + s + b) == Strip(s)
  {
    assert a + s + b == a + (s + b);
    StripLeftBlank(a, s + b);
    StripLeftAppend(s, b);
  }

  lemma {:induction false} StripRightParts(s: string)
    ensures forall c :: c in StripRight(s) ==> c in s
    ensures StripRight(s) != "" ==> !IsSpace(StripRight(s)[|StripRight(s)| - 1])
    ensures StripRight(s) <= s
  {
    if s != "" && IsSpace(s[|s| - 1]) {
      StripRightParts(s[..|s| - 1]);
    }
  }

  lemma {:induction false} StripLeftParts(s: string)
    ensures forall c :: c in StripLeft(s) ==> c in s
    ensures StripLeft(s) != "" ==> !IsSpace(StripLeft(s)[0])
  {
    if s != "" && IsSpace(s[0]) {
      StripLeftParts(s[1..]);
    }
  }

  /** What stripping leaves is stripped, and made of the same characters. */
  lemma {:induction false} StripResult(s: string)
    ensures Strip(Strip(s)) == Strip(s)
    ensures forall c :: c in Strip(s) ==> c in s
  {
    StripLeftParts(s);
    StripRightParts(StripLeft(s));
    var r := Strip(s);
    if r != "" {
      assert r[0] == StripLeft(s)[0];
    }
  }

  lemma {:induction false} SplitPlain(s: string)
    requires DELIMITER !in s
    ensures Split(s) == [s]
  {
    if s != "" {
      SplitPlain(s[1..]);
      assert [s[0]] + s[1..] == s;
    }
  }

  lemma {:induction false} SplitAt(a: string, b: string)
    requires DELIMITER !in a
    ensures Split(a + "§" + b) == [a] + Split(b)
  {
    var all := a + "§" + b;
    if a == "" {
      assert all[1..] == b;
    } else {
      assert all[1..] == a[1..] + "§" + b;
      SplitAt(a[1..], b);
      assert [a[0]] + a[1..] == a;
    }
  }

  function Kept(piece: string): seq<string> { if Strip(piece) == "" then [] else [Strip(piece)] }

  lemma {:induction false} ParseAfterDelimiter(rest: string)
    ensures Parse("§" + rest) == Parse(rest)
  {
    assert "" + "§" + rest == "§" + rest;
    SplitAt("", rest);
    assert StripLeft("") == "" && StripRight("") == "";
    assert Kept("") + Stripped(Split(rest)) == Stripped(Split(rest));
  }

  lemma {:induction false} ParsePlain(x: string)
    requires DELIMITER !in x
    ensures Parse(x) == Kept(x)
  {
    SplitPlain(x);
    assert [x] + [] == [x] && Stripped([]) == [];
    assert Kept(x) + [] == Kept(x);
  }

  lemma {:induction false} BlankParsesToNothing(z: string)
    requires Blank(z)
    ensures Parse(z) == []
  {
    assert !IsSpace(DELIMITER);
    ParsePlain(z);
    StripAround(z, "", "");
    assert z + "" + "" == z;
    assert StripLeft("") == "" && StripRight("") == "";
  }

  lemma {:induction false} StrippedConcat(a: seq<string>, b: seq<string>)
    ensures Stripped(a + b) == Stripped(a) + Stripped(b)
  {
    if a == [] {
      assert a + b == b;
    } else {
      assert (a + b)[1..] == a[1..] + b;
      StrippedConcat(a[1..], b);
    }
  }

  lemma {:induction false} SplitPrepend(gap: string, r: string)
    requires DELIMITER !in gap
    ensures Split(gap + r) == [gap + Split(r)[0]] + Split(r)[1..]
  {
    if gap == "" {
      assert gap + r == r && "" + Split(r)[0] == Split(r)[0];
    } else {
      assert (gap + r)[0] == gap[0] && (gap + r)[1..] == gap[1..] + r;
      SplitPrepend(gap[1..], r);
      assert [gap[0]] + (gap[1..] + Split(r)[0]) == gap + Split(r)[0];
    }
  }

  /** The pieces with some text behind the last one. */
  function WithLast(pieces: seq<string>, b: string): seq<string>
    requires pieces != []
  {
    pieces[..|pieces| - 1] + [pieces[|pieces| - 1] + b]
  }

  lemma {:induction false} WithLastCons(x: string, pieces: seq<string>, b: string)
    requires pieces != []
    ensures WithLast([x] + pieces, b) == [x] + WithLast(pieces, b)
  {
    assert ([x] + pieces)[..|pieces|] == [x] + pieces[..|pieces| - 1];
    ConcatThree([x], pieces[..|pieces| - 1], [pieces[|pieces| - 1] + b]);
  }

  lemma {:induction false} SplitAppend(r: string, b: string)
    requires DELIMITER !in b
    ensures Split(r + b) == WithLast(Split(r), b)
  {
    if r == "" {
      assert r + b == b && "" + b == b;
      SplitPlain(b);
    } else {
      assert (r + b)[0] == r[0] && (r + b)[1..] == r[1..] + b;
      SplitAppend(r[1..], b);
      var tail := Split(r[1..]);
      if r[0] == DELIMITER {
        WithLastCons("", tail, b);
      } else {
        ExtendFirst(r[0], tail, b);
      }
    }
  }

  /** A character in front of the first piece. */
  lemma {:induction false} ExtendFirst(c: char, tail: seq<string>, b: string)
    requires tail != []
    ensures var last := WithLast(tail, b);
            [[c] + last[0]] + last[1..] == WithLast([[c] + tail[0]] + tail[1..], b)
  {
    var x := [c] + tail[0];
    if |tail| == 1 {
      ConcatThree([c], tail[0], b);
    } else {
      WithLastCons(x, tail[1..], b);
      WithLastCons(tail[0], tail[1..], b);
      assert tail == [tail[0]] + tail[1..];
    }
  }

  lemma {:induction false} ParsePrepend(gap: string, r: string)
    requires Blank(gap)
    ensures Parse(gap + r) == Parse(r)
  {
    assert !IsSpace(DELIMITER);
    SplitPrepend(gap, r);
    var first, rest := Split(r)[0], Split(r)[1..];
    assert Split(r) == [first] + rest;
    assert gap + first + "" == gap + first;
    StripAround(gap, first, "");
  }

  lemma {:induction false} ParseAppend(r: string, b: string)
    requires Blank(b)
    ensures Parse(r + b) == Parse(r)
  {
    assert !IsSpace(DELIMITER);
    SplitAppend(r, b);
    var pieces := Split(r);
    var init, last := pieces[..|pieces| - 1], pieces[|pieces| - 1];
    assert pieces == init + [last];
    StrippedConcat(init, [last]);
    StrippedConcat(init, [last + b]);
    StrippedPadded(last, b);
  }

  lemma {:induction false} StrippedPadded(piece: string, b: string)
    requires Blank(b)
    ensures Stripped([piece + b]) == Stripped([piece])
  {
    assert [piece] + [] == [piece] && [piece + b] + [] == [piece + b];
    assert "" + piece + b == piece + b;
    StripAround("", piece, b);
  }

  predicate NewPiece(z: string) { z == "" || z[0] == DELIMITER }

  lemma {:induction false} ParseLine(x: string, w: string)
    requires DELIMITER !in x && NewPiece(w)
    ensures Parse("§" + x + w) == Kept(x) + Parse(w)
  {
    assert "§" + x + w == "§" + (x + w);
    ParseAfterDelimiter(x + w);
    if w == "" {
      assert x + w == x;
      ParsePlain(x);
      BlankParsesToNothing(w);
    } else {
      var rest := w[1..];
      assert w == "§" + rest && x + w == x + "§" + rest;
      SplitAt(x, rest);
      ParseAfterDelimiter(rest);
    }
  }

  /** Blanks after the last line do not make an entry. */
  lemma {:induction false} ParseLastLine(e: string, z: string)
    requires Entry(e) && Blank(z)
    ensures Parse("§" + (" " + e + "\n") + z) == [e]
  {
    var x := " " + e + ("\n" + z);
    assert "§" + (" " + e + "\n") + z == "§" + x;
    assert !IsSpace(DELIMITER);
    ParseAfterDelimiter(x);
    ParsePlain(x);
    StripAround(" ", e, "\n" + z);
  }

  lemma {:induction false} ParseFirst(e: string, w: string)
    requires Entry(e) && (NewPiece(w) || Blank(w))
    ensures Parse("§" + (" " + e + "\n") + w) == [e] + Parse(w)
  {
    if NewPiece(w) {
      StripAround(" ", e, "\n");
      ParseLine(" " + e + "\n", w);
    } else {
      ParseLastLine(e, w);
      BlankParsesToNothing(w);
    }
  }

  lemma {:induction false} LinesCons(entries: seq<string>, z: string)
    requires entries != []
    ensures Lines(entries) + z == "§" + (" " + entries[0] + "\n") + (Lines(entries[1..]) + z)
  {
  }

  lemma {:induction false} ParseConsLine(entries: seq<string>, z: string)
    requires entries != [] && Entry(entries[0])
    requires NewPiece(Lines(entries[1..]) + z) || Blank(Lines(entries[1..]) + z)
    ensures Parse(Lines(entries) + z) == [entries[0]] + Parse(Lines(entries[1..]) + z)
  {
    LinesCons(entries, z);
    ParseFirst(entries[0], Lines(entries[1..]) + z);
  }

  /** Lines in front of whatever follows parse to their entries. */
  lemma {:induction false} ParseLines(entries: seq<string>, z: string)
    requires forall e :: e in entries ==> Entry(e)
    requires NewPiece(z) || Blank(z)
    ensures Parse(Lines(entries) + z) == entries + Parse(z)
  {
    if entries == [] {
      assert Lines(entries) + z == z && entries + Parse(z) == Parse(z);
    } else {
      var e, tail := entries[0], entries[1..];
      ParseLines(tail, z);
      ParseConsLine(entries, z);
      ConcatThree([e], tail, Parse(z));
      assert [e] + tail == entries;
    }
  }

  // ---- Every entry that is ever read ----------------------------------------------------------

  lemma {:induction false} SplitPieces(s: string)
    ensures forall piece, c :: piece in Split(s) && c in piece ==> c in s && c != DELIMITER
  {
    if s != "" {
      SplitPieces(s[1..]);
    }
  }

  lemma {:induction false} KeptAreEntries(pieces: seq<string>)
    requires forall piece, c :: piece in pieces && c in piece ==> c != DELIMITER && c != '\r'
    ensures forall e :: e in Stripped(pieces) ==> Entry(e)
  {
    if pieces != [] {
      StripResult(pieces[0]);
      KeptAreEntries(pieces[1..]);
    }
  }

  lemma {:induction false} ParsedAreEntries(s: string)
    requires '\r' !in s
    ensures forall e :: e in Parse(s) ==> Entry(e)
  {
    SplitPieces(s);
    KeptAreEntries(Split(s));
  }

  // ---- Lines as they are written --------------------------------------------------------------

  lemma {:induction false} RenderedIsLines(entries: seq<string>)
    requires entries != []
    ensures Rendered(entries) + "\n" == Lines(entries)
  {
    if |entries| > 1 {
      RenderedIsLines(entries[1..]);
      assert Rendered(entries) == "§ " + entries[0] + "\n" + Rendered(entries[1..]);
    } else {
      assert entries[1..] == [] && Lines(entries[1..]) == "";
    }
  }

  lemma {:induction false} LinesConcat(a: seq<string>, b: seq<string>)
    ensures Lines(a + b) == Lines(a) + Lines(b)
  {
    if a == [] {
      assert a + b == b;
    } else {
      assert (a + b)[1..] == a[1..] + b;
      LinesConcat(a[1..], b);
    }
  }

  lemma {:induction false} LinesHaveNoReturn(entries: seq<string>)
    requires forall e :: e in entries ==> Entry(e)
    ensures '\r' !in Lines(entries)
  {
    if entries != [] {
      assert Entry(entries[0]);
      LinesHaveNoReturn(entries[1..]);
    }
  }

  // ---- Reading back ---------------------------------------------------------------------------

  lemma {:induction false} ReadBackAfter(a: string, b: string)
    requires '\r' !in a
    ensures ReadBack(a + b) == a + ReadBack(b)
  {
    if a == "" {
      assert a + b == b && a + ReadBack(b) == ReadBack(b);
    } else {
      assert (a + b)[0] == a[0] && (a + b)[1..] == a[1..] + b;
      ReadBackAfter(a[1..], b);
      ConcatThree([a[0]], a[1..], ReadBack(b));
      assert [a[0]] + a[1..] == a;
    }
  }

  /** A newline after a carriage return is read as part of it. */
  lemma {:induction false} ReadBackNewline(y: string)
    ensures ReadBack(y + "\n") == ReadBack(y) || ReadBack(y + "\n") == ReadBack(y) + "\n"
    decreases |y|
  {
    if y == "" {
      assert y + "\n" == "\n" && "\n"[1..] == "" && ReadBack("") == "";
    } else if y[0] == '\r' {
      if |y| == 1 {
        assert (y + "\n")[1] == '\n' && (y + "\n")[2..] == "" && y[1..] == "";
      } else if y[1] == '\n' {
        assert (y + "\n")[2..] == y[2..] + "\n";
        ReadBackNewline(y[2..]);
      } else {
        assert (y + "\n")[1..] == y[1..] + "\n";
        ReadBackNewline(y[1..]);
      }
    } else {
      assert (y + "\n")[1..] == y[1..] + "\n";
      ReadBackNewline(y[1..]);
    }
  }

  // ---- Adding -----------------------------------------------------------------------------------

  /** The written form of the entries is within the cap. */
  predicate Fits(entries: seq<string>, limit: nat) {
    entries == [] || |Rendered(entries)| <= limit
  }

  /** The part of a new text that the cap lets through after the entries already there. */
  function Through(entries: seq<string>, t: string, limit: nat): string {
    var room := limit - |Lines(entries)| - 2;
    if room <= 0 then "" else if room < |t| then t[..room] else t
  }

  lemma {:induction false} LinesLength(entries: seq<string>)
    requires entries != []
    ensures |Lines(entries)| == |Rendered(entries)| + 1
  {
    RenderedIsLines(entries);
  }

  /** What adding writes: the old lines untouched, then as much of the new line as fits. */
  lemma {:induction false} WrittenByAdd(entries: seq<string>, t: string, limit: nat) returns (k: nat)
    requires Fits(entries, limit)
    ensures k <= |t| + 2
    ensures Capped(Rendered(entries + [t]), limit) + "\n"
            == if entries != [] && limit == |Rendered(entries)| then Lines(entries)
               else Lines(entries) + ("§ " + t)[..k] + "\n"
    ensures Through(entries, t, limit) == if k <= 2 then "" else t[..k - 2]
    ensures entries != [] && limit == |Rendered(entries)| ==> k == 0
  {
    var full := Rendered(entries + [t]);
    var line := "§ " + t;
    RenderedIsLines(entries + [t]);
    LinesConcat(entries, [t]);
    assert full + "\n" == Lines(entries) + line + "\n";
    assert full == (full + "\n")[..|full|] == Lines(entries) + line;
    if entries != [] {
      RenderedIsLines(entries);
      LinesLength(entries);
    }
    var n := |Lines(entries)|;
    k := if limit < n then 0 else Min(limit - n, |line|);
    if |full| > limit {
      if limit < n {
        assert full[..limit] == Rendered(entries);
      } else {
        assert full[..limit] == Lines(entries) + line[..k];
      }
    } else {
      assert line[..k] == line;
    }
    assert t[..|t|] == t;
  }

  lemma {:induction false} PieceParses(gap: string, r: string, w: string)
    requires Blank(gap) && (w == r || w == r + "\n")
    ensures Parse("§" + (gap + w)) == Parse(r)
  {
    ParseAfterDelimiter(gap + w);
    ParsePrepend(gap, w);
    ParseAppend(r, "\n");
  }

  lemma {:induction false} StartParses(gap: string, y: string)
    requires Blank(gap) && '\r' !in gap
    ensures Parse(ReadBack("§" + (gap + (y + "\n")))) == Parse(ReadBack(y))
  {
    ReadBackAfter("§", gap + (y + "\n"));
    ReadBackAfter(gap, y + "\n");
    ReadBackNewline(y);
    PieceParses(gap, ReadBack(y), ReadBack(y + "\n"));
  }

  /** One line, cut anywhere and with its newline, read back and parsed. */
  lemma {:induction false} CutLineParses(t: string, k: nat)
    requires k <= |t| + 2
    ensures Parse(ReadBack(("§ " + t)[..k] + "\n"))
            == Parse(ReadBack(if k <= 2 then "" else t[..k - 2]))
  {
    if k == 0 {
      assert ("§ " + t)[..k] + "\n" == "\n";
    } else {
      var y := if k <= 2 then "" else t[..k - 2];
      var gap := if k == 1 then "" else " ";
      assert ("§ " + t)[..k] + "\n" == "§" + (gap + (y + "\n"));
      StartParses(gap, y);
    }
  }

  lemma {:induction false} RenderedLength(entries: seq<string>)
    requires entries != []
    ensures |Rendered(entries)| == |entries[0]| + 2
            + if |entries| == 1 then 0 else 1 + |Rendered(entries[1..])|
  {
  }

  lemma {:induction false} CutPrefix(entries: seq<string>, k: nat)
    requires entries != [] && k <= |entries[0]| + 2
    ensures k <= |Lines(entries)| && Lines(entries)[..k] == ("§ " + entries[0])[..k]
  {
    assert Lines(entries) == ("§ " + entries[0]) + ("\n" + Lines(entries[1..]));
  }

  lemma {:induction false} CutHasNoReturn(e: string, k: nat)
    requires '\r' !in e && k <= |e| + 2
    ensures var cut := ("§ " + e)[..k] + "\n"; ReadBack(cut) == cut
  {
    assert forall c :: c in ("§ " + e)[..k] ==> c in "§ " + e;
  }

  lemma {:induction false} CutIsReadBack(entries: seq<string>, k: nat)
    requires (forall e :: e in entries ==> Entry(e)) && k <= |Lines(entries)|
    ensures var cut := Lines(entries)[..k] + "\n"; ReadBack(cut) == cut
  {
    LinesHaveNoReturn(entries);
    assert forall c :: c in Lines(entries)[..k] ==> c in Lines(entries);
  }

  /** What is left of entries whose lines are cut after `k` characters. */
  function CutTo(entries: seq<string>, k: nat): seq<string> {
    if entries == [] then []
    else
      var e := entries[0];
      if k <= 2 then []
      else if k <= |e| + 2 then Kept(e[..k - 2])
      else [e] + CutTo(entries[1..], k - |e| - 3)
  }

  /** A cut within the first line. */
  lemma {:induction false} CutFirstLine(entries: seq<string>, k: nat)
    requires entries != [] && Entry(entries[0]) && k <= |entries[0]| + 2
    ensures k <= |Lines(entries)| && Parse(Lines(entries)[..k] + "\n") == CutTo(entries, k)
  {
    var e := entries[0];
    CutPrefix(entries, k);
    CutHasNoReturn(e, k);
    CutLineParses(e, k);
    var y := if k <= 2 then "" else e[..k - 2];
    assert forall c :: c in y ==> c in e;
    ParsePlain(y);
    BlankParsesToNothing("");
  }

  lemma {:induction false} PrefixTail(e: string, tail: seq<string>, r: seq<string>)
    ensures [e] + tail <= [e] + r ==> tail <= r
  {
    if [e] + tail <= [e] + r {
      assert forall i :: 0 <= i < |tail| ==> tail[i] == ([e] + tail)[i + 1] == r[i];
    }
  }

  lemma {:induction false} CutParses(entries: seq<string>, k: nat)
    requires forall e :: e in entries ==> Entry(e)
    requires entries != [] && k < |Lines(entries)|
    ensures Parse(Lines(entries)[..k] + "\n") == CutTo(entries, k)
  {
    var e, tail := entries[0], entries[1..];
    assert Entry(e);
    if k <= |e| + 2 {
      CutFirstLine(entries, k);
    } else {
      var m := k - |e| - 3;
      var w := Lines(tail)[..m] + "\n";
      CutParses(tail, m);
      LinesCons(entries, "");
      assert Lines(entries) + "" == Lines(entries) && Lines(tail) + "" == Lines(tail);
      assert Lines(entries)[..k] + "\n" == "§" + (" " + e + "\n") + w;
      LineBefore(e, Lines(tail), m);
    }
  }

  lemma {:induction false} CutLosesAnEntry(entries: seq<string>, k: nat)
    requires entries != [] && k < |Rendered(entries)|
    ensures !(entries <= CutTo(entries, k))
  {
    var e, tail := entries[0], entries[1..];
    RenderedLength(entries);
    if 2 < k <= |e| + 2 {
    } else if k > 2 {
      CutLosesAnEntry(tail, k - |e| - 3);
      PrefixTail(e, tail, CutTo(tail, k - |e| - 3));
      assert entries == [e] + tail;
    }
  }

  lemma {:induction false} LineBefore(e: string, later: string, m: nat)
    requires Entry(e) && NewPiece(later) && m <= |later|
    ensures Parse("§" + (" " + e + "\n") + (later[..m] + "\n")) == [e] + Parse(later[..m] + "\n")
  {
    var w := later[..m] + "\n";
    if m == 0 {
      assert w == "\n";
    }
    ParseFirst(e, w);
  }

  // ---- Agreement with a plain list, over every run -------------------------------------------

  datatype Action = Add(text: string) | Remove(text: string)

  function Apply(file: string, a: Action, limit: nat): string {
    match a
    case Add(text) => Added(file, text, limit)
    case Remove(text) => Removed(file, text)
  }

  function Run(file: string, actions: seq<Action>, limit: nat): string
    decreases actions
  {
    if actions == [] then file else Run(Apply(file, actions[0], limit), actions[1..], limit)
  }

  /** The same actions on a list of entries that is never written or parsed. A new text may hold
      several entries; entries that do not fit together are cut. */
  function Listed(entries: seq<string>, a: Action, limit: nat): seq<string> {
    match a
    case Add(text) =>
      var t := Strip(text);
      if t == "" || t in entries then entries
      else if Fits(entries, limit) then entries + Parse(ReadBack(Through(entries, t, limit)))
      else CutTo(entries, limit)
    case Remove(text) => Without(entries, text)
  }

  function ListRun(entries: seq<string>, actions: seq<Action>, limit: nat): seq<string>
    decreases actions
  {
    if actions == [] then entries else ListRun(Listed(entries, actions[0], limit), actions[1..], limit)
  }

  /** However much of the text gets through, what it parses to takes no more room when it is written
      again. */
  ghost predicate Compact(t: string) {
    forall k :: 0 <= k <= |t| ==> PrefixFits(t, k)
  }

  predicate PrefixFits(t: string, k: nat)
    requires k <= |t|
  {
    Fits(Parse(ReadBack(t[..k])), k + 2)
  }

  ghost predicate AllCompact(actions: seq<Action>) {
    forall a :: a in actions && a.Add? ==> Compact(Strip(a.text))
  }

  lemma {:induction false} LinesThenPiece(es: seq<string>, z: string)
    requires forall e :: e in es ==> Entry(e)
    requires z == "" || z == "\n" || z[0] == DELIMITER
    ensures Entries(Lines(es) + z) == es + Parse(ReadBack(z))
  {
    LinesHaveNoReturn(es);
    ReadBackAfter(Lines(es), z);
    ParseLines(es, ReadBack(z));
  }

  lemma {:induction false} AddedNew(file: string, t: string, limit: nat)
    requires Fits(Entries(file), limit)
    ensures var es := Entries(file);
            Entries(Capped(Rendered(es + [t]), limit) + "\n")
            == es + Parse(ReadBack(Through(es, t, limit)))
  {
    var es := Entries(file);
    ParsedAreEntries(ReadBack(file));
    var k := WrittenByAdd(es, t, limit);
    if es != [] && limit == |Rendered(es)| {
      assert Capped(Rendered(es + [t]), limit) + "\n" == Lines(es) + "";
      LinesThenPiece(es, "");
      BlankParsesToNothing("");
      assert ReadBack("") == "";
    } else {
      var z := ("§ " + t)[..k] + "\n";
      assert Lines(es) + ("§ " + t)[..k] + "\n" == Lines(es) + z;
      LinesThenPiece(es, z);
      CutLineParses(t, k);
    }
  }

  lemma {:induction false} AddedOverflowing(file: string, t: string, limit: nat)
    requires !Fits(Entries(file), limit)
    ensures Entries(Capped(Rendered(Entries(file) + [t]), limit) + "\n") == CutTo(Entries(file), limit)
  {
    var es := Entries(file);
    ParsedAreEntries(ReadBack(file));
    CapCutsLines(es, t, limit);
    CutIsReadBack(es, limit);
    CutParses(es, limit);
  }

  lemma {:induction false} CapCutsLines(entries: seq<string>, t: string, limit: nat)
    requires !Fits(entries, limit)
    ensures limit < |Lines(entries)|
    ensures Capped(Rendered(entries + [t]), limit) == Lines(entries)[..limit]
  {
    RenderedIsLines(entries);
    RenderedIsLines(entries + [t]);
    LinesConcat(entries, [t]);
    LinesLength(entries);
    LinesLength(entries + [t]);
    var full := Rendered(entries + [t]);
    assert full[..limit] == (full + "\n")[..limit] == Lines(entries)[..limit];
  }

  /** What is read back after an add, for any file and any text. */
  lemma {:induction false} AddThenList(file: string, text: string, limit: nat)
    ensures Entries(Added(file, text, limit)) == Listed(Entries(file), Add(text), limit)
  {
    var t := Strip(text);
    if t != "" && t !in Entries(file) {
      if Fits(Entries(file), limit) {
        AddedNew(file, t, limit);
      } else {
        AddedOverflowing(file, t, limit);
      }
    }
  }

  /** Every add keeps the entries read before, in front and unchanged, exactly when their written
      form is within the cap; whatever the text holds. */
  lemma {:induction false} AddKeepsEarlierEntries(file: string, text: string, limit: nat)
    requires Strip(text) != "" && Strip(text) !in Entries(file)
    ensures Entries(file) <= Entries(Added(file, text, limit)) <==> Fits(Entries(file), limit)
  {
    AddThenList(file, text, limit);
    if !Fits(Entries(file), limit) {
      CutLosesAnEntry(Entries(file), limit);
    }
  }

  /** Whatever the file and the text, a new entry is read back as given, behind the ones that were
      there, exactly when it holds no section sign, which splits it, and no carriage return, which
      reading turns into a newline, and everything fits. */
  lemma {:induction false} AddedReadsBackExactly(file: string, text: string, limit: nat)
    requires Strip(text) != "" && Strip(text) !in Entries(file)
    ensures Entries(Added(file, text, limit)) == Entries(file) + [Strip(text)]
            <==> DELIMITER !in Strip(text) && '\r' !in Strip(text)
                 && |Rendered(Entries(file) + [Strip(text)])| <= limit
  {
    var es, t := Entries(file), Strip(text);
    var after := Entries(Added(file, text, limit));
    FullLength(es, t);
    AddKeepsEarlierEntries(file, text, limit);
    ParsedAreEntries(ReadBack(Added(file, text, limit)));
    if es != [] {
      LinesLength(es);
    }
    if after == es + [t] {
      assert t in after && Entry(t) && es <= after;
      AddThenList(file, text, limit);
      assert after[|es|..] == [t] && (es + Parse(ReadBack(Through(es, t, limit))))[|es|..] == [t];
      ThroughWhole(es, t, limit);
    }
    if DELIMITER !in t && '\r' !in t && |Rendered(es + [t])| <= limit {
      AddThenList(file, text, limit);
      StripResult(text);
      ParsePlain(t);
      assert Through(es, t, limit) == t;
    }
  }

  /** A plain text comes back whole only if all of it got through. */
  lemma {:induction false} ThroughWhole(entries: seq<string>, t: string, limit: nat)
    requires DELIMITER !in t && Parse(ReadBack(Through(entries, t, limit))) == [t]
    ensures |t| <= limit - |Lines(entries)| - 2
  {
    var through := Through(entries, t, limit);
    assert forall c :: c in through ==> c in t;
    ParsePlain(ReadBack(through));
    assert Strip(ReadBack(through)) == t;
  }

  lemma {:induction false} FullLength(entries: seq<string>, t: string)
    ensures |Rendered(entries + [t])| == |Lines(entries)| + 2 + |t|
  {
    RenderedIsLines(entries + [t]);
    LinesConcat(entries, [t]);
    LinesLength(entries + [t]);
  }

  lemma {:induction false} RemoveThenList(file: string, text: string)
    ensures Entries(Removed(file, text)) == Without(Entries(file), text)
    ensures forall e :: e in Entries(Removed(file, text)) <==> e in Entries(file) && e != Strip(text)
  {
    var es := Entries(file);
    var rest := Without(es, text);
    ParsedAreEntries(ReadBack(file));
    FilterHolds(es, Differs(Strip(text)));
    BlankParsesToNothing("");
    assert ReadBack("") == "";
    if rest != [] {
      RenderedIsLines(rest);
      LinesHaveNoReturn(rest);
      ParseLines(rest, "");
      assert Lines(rest) + "" == Lines(rest) && rest + [] == rest;
    }
  }

  // ---- The cap -------------------------------------------------------------------------------

  lemma {:induction false} WithoutIsShorter(entries: seq<string>, t: string)
    ensures |Lines(Filter(entries, Differs(t)))| <= |Lines(entries)|
  {
    if entries != [] {
      var tail := entries[1..];
      WithoutIsShorter(tail, t);
      if entries[0] == t {
        assert Filter(entries, Differs(t)) == Filter(tail, Differs(t));
      } else {
        assert Filter(entries, Differs(t)) == [entries[0]] + Filter(tail, Differs(t));
        LinesConcat([entries[0]], Filter(tail, Differs(t)));
      }
    }
  }

  lemma {:induction false} AddedFits(entries: seq<string>, t: string, limit: nat)
    requires Fits(entries, limit) && Compact(t)
    ensures Fits(entries + Parse(ReadBack(Through(entries, t, limit))), limit)
  {
    var room := limit - |Lines(entries)| - 2;
    var k := if room <= 0 then 0 else Min(room, |t|);
    assert Through(entries, t, limit) == t[..k];
    var ps := Parse(ReadBack(t[..k]));
    assert PrefixFits(t, k);
    if room <= 0 {
      assert t[..k] == "";
    }
    if ps == [] {
      assert entries + [] == entries;
    } else {
      LinesConcat(entries, ps);
      LinesLength(entries + ps);
      LinesLength(ps);
    }
  }

  lemma {:induction false} ListedFits(entries: seq<string>, a: Action, limit: nat)
    requires Fits(entries, limit) && (a.Add? ==> Compact(Strip(a.text)))
    ensures Fits(Listed(entries, a, limit), limit)
  {
    match a
    case Add(text) => AddedFits(entries, Strip(text), limit);
    case Remove(text) => RestFits(entries, text, limit);
  }

  lemma {:induction false} RestFits(entries: seq<string>, text: string, limit: nat)
    requires Fits(entries, limit)
    ensures Fits(Without(entries, text), limit)
  {
    WithoutIsShorter(entries, Strip(text));
    var rest := Without(entries, text);
    if rest != [] {
      FilterHolds(entries, Differs(Strip(text)));
      assert rest[0] in entries;
      LinesLength(entries);
      LinesLength(rest);
    }
  }

  lemma {:induction false} StepAgrees(file: string, a: Action, limit: nat)
    ensures Entries(Apply(file, a, limit)) == Listed(Entries(file), a, limit)
  {
    match a
    case Add(text) => AddThenList(file, text, limit);
    case Remove(text) => RemoveThenList(file, text);
  }

  /** A step leaves the file within the cap and its last newline exactly if it is an add, or a
      removal whose remaining entries fit; removals are not capped. */
  lemma {:induction false} WithinCapExactlyWhen(file: string, a: Action, limit: nat)
    requires |file| <= limit + 1
    ensures |Apply(file, a, limit)| <= limit + 1
            <==> a.Add? || Fits(Without(Entries(file), a.text), limit)
  {
  }

  /** A file stays within the cap under every removal exactly when its entries, written one to a line,
      fit. */
  lemma {:induction false} RemovalsFitExactlyWhen(file: string, limit: nat)
    ensures (forall text :: |Removed(file, text)| <= limit + 1) <==> Fits(Entries(file), limit)
  {
    if Fits(Entries(file), limit) {
      forall text
        ensures |Removed(file, text)| <= limit + 1
      {
        RestFits(Entries(file), text, limit);
      }
    } else {
      RemovingNothing(file);
      assert |Removed(file, "§")| > limit + 1;
    }
  }

  /** No entry is a section sign, so removing one writes all entries anew. */
  lemma {:induction false} RemovingNothing(file: string)
    ensures Removed(file, "§") == if Entries(file) == [] then "" else Rendered(Entries(file)) + "\n"
  {
    ParsedAreEntries(ReadBack(file));
    assert !IsSpace(DELIMITER) && Strip("§") == "§";
    assert forall e :: e in Entries(file) ==> Entry(e) && Differs("§")(e);
    FilterAll(Entries(file), Differs("§"));
  }

  /** Over every sequence of adds and removes of any texts, parsing what was written gives what a
      plain list holds. If the texts added are compact, the file never exceeds the cap by more than
      its last newline. */
  lemma {:induction false} RunAgreesWithList(file: string, actions: seq<Action>, limit: nat)
    ensures Entries(Run(file, actions, limit)) == ListRun(Entries(file), actions, limit)
    ensures Fits(Entries(file), limit) && |file| <= limit + 1 && AllCompact(actions) ==>
              && Fits(Entries(Run(file, actions, limit)), limit)
              && |Run(file, actions, limit)| <= limit + 1
    decreases actions
  {
    if actions != [] {
      var a, next := actions[0], Apply(file, actions[0], limit);
      StepAgrees(file, a, limit);
      RunAgreesWithList(next, actions[1..], limit);
      if Fits(Entries(file), limit) && |file| <= limit + 1 && AllCompact(actions) {
        assert a in actions;
        ListedFits(Entries(file), a, limit);
        WithinCapExactlyWhen(file, a, limit);
      }
    }
  }

  lemma {:induction false} RunFromEmptyFile(actions: seq<Action>, limit: nat)
    ensures Entries(Run("", actions, limit)) == ListRun([], actions, limit)
    ensures AllCompact(actions) ==> |Run("", actions, limit)| <= limit + 1
  {
    RunAgreesWithList("", actions, limit);
  }

  predicate AddsOnly(actions: seq<Action>, texts: set<string>) {
    forall a :: a in actions && a.Add? ==> a.text in texts
  }

  /** Every run that adds these texts, with any removals, stays within every cap. */
  ghost predicate StaysWithin(texts: set<string>) {
    forall actions, limit: nat :: AddsOnly(actions, texts) ==> |Run("", actions, limit)| <= limit + 1
  }

  /** The cap holds for a set of texts, over every run and for every limit, exactly when each of them
      is compact. */
  lemma {:induction false} CapHoldsExactlyWhen(texts: set<string>)
    ensures StaysWithin(texts) <==> forall t :: t in texts ==> Compact(Strip(t))
  {
    if forall t :: t in texts ==> Compact(Strip(t)) {
      forall actions, limit: nat | AddsOnly(actions, texts)
        ensures |Run("", actions, limit)| <= limit + 1
      {
        RunFromEmptyFile(actions, limit);
      }
    } else {
      var text :| text in texts && !Compact(Strip(text));
      var k :| 0 <= k <= |Strip(text)| && !PrefixFits(Strip(text), k);
      CutOverflows(text, k);
      assert AddsOnly([Add(text), Remove("§")], texts);
    }
  }

  /** With the cap behind a prefix that is not compact, an add and a removal exceed it. */
  lemma {:induction false} CutOverflows(text: string, k: nat)
    requires k <= |Strip(text)| && !PrefixFits(Strip(text), k)
    ensures |Run("", [Add(text), Remove("§")], k + 2)| > k + 3
  {
    var file := Added("", text, k + 2);
    CutEntries(text, k);
    RemovingNothing(file);
    TwoActions("", Add(text), Remove("§"), k + 2);
  }

  lemma {:induction false} CutEntries(text: string, k: nat)
    requires k <= |Strip(text)| && !PrefixFits(Strip(text), k)
    ensures Entries(Added("", text, k + 2)) == Parse(ReadBack(Strip(text)[..k]))
  {
    var ps := Parse(ReadBack(Strip(text)[..k]));
    ThroughOfEmpty(Strip(text), k);
    AddThenList("", text, k + 2);
    assert k > 0 by {
      assert Strip(text)[..0] == "";
    }
    assert [] + ps == ps;
  }

  lemma {:induction false} ThroughOfEmpty(t: string, k: nat)
    requires k <= |t|
    ensures Through([], t, k + 2) == t[..k]
  {
    assert t[..0] == "" && t[..|t|] == t;
  }

  lemma {:induction false} TwoActions(file: string, a: Action, b: Action, limit: nat)
    ensures Run(file, [a, b], limit) == Apply(Apply(file, a, limit), b, limit)
  {
    assert [a, b][1..] == [b] && [b][1..] == [];
    assert Run(file, [a, b], limit) == Run(Apply(file, a, limit), [b], limit);
  }

  /** Texts without section signs are compact. */
  lemma {:induction false} PlainIsCompact(t: string)
    requires DELIMITER !in t
    ensures Compact(t)
  {
    forall k | 0 <= k <= |t|
      ensures PrefixFits(t, k)
    {
      PlainPrefixFits(t[..k]);
    }
  }

  lemma {:induction false} PlainPrefixFits(p: string)
    requires DELIMITER !in p
    ensures Fits(Parse(ReadBack(p)), |p| + 2)
  {
    ParsePlain(ReadBack(p));
  }

  /** A section sign between two entries costs two characters when they are written again, so it is
      the white space around it that decides. */
  lemma {:induction false} OneSignIsCompactExactlyWhen(x: string, g: string, h: string, y: string)
    requires Entry(x) && Entry(y) && Gap(g) && Gap(h)
    ensures Compact(SignBetween(x, g, h, y)) <==> |g| + |h| >= 2
  {
    var t, n := SignBetween(x, g, h, y), |x| + |g| + 1;
    if |g| + |h| >= 2 {
      forall k | 0 <= k <= |t|
        ensures PrefixFits(t, k)
      {
        if k < n {
          BeforeSign(x, g, h, y, k);
        } else {
          BehindSign(x, g, h, y, k);
        }
      }
    } else {
      BehindSign(x, g, h, y, |t|);
    }
  }

  lemma {:induction false} BehindSign(x: string, g: string, h: string, y: string, k: nat)
    requires Entry(x) && Entry(y) && Gap(g) && Gap(h)
    requires |x| + |g| < k <= |SignBetween(x, g, h, y)|
    ensures |g| + |h| >= 2 ==> PrefixFits(SignBetween(x, g, h, y), k)
    ensures k == |SignBetween(x, g, h, y)| && PrefixFits(SignBetween(x, g, h, y), k) ==>
              |g| + |h| >= 2
  {
    var m := k - |x| - |g| - 1;
    SignPrefix(x, g, h, y, m);
    assert SignBetween(x, g, h, y) == ((x + g) + "§") + (h + y);
    assert SignBetween(x, g, h, y)[..k] == (x + g) + "§" + (h + y)[..m];
  }

  predicate Gap(g: string) { Blank(g) && '\r' !in g }

  function SignBetween(x: string, g: string, h: string, y: string): string { x + g + "§" + h + y }

  lemma {:induction false} BeforeSign(x: string, g: string, h: string, y: string, k: nat)
    requires Entry(x) && Gap(g) && k <= |x| + |g|
    ensures PrefixFits(SignBetween(x, g, h, y), k)
  {
    var t := SignBetween(x, g, h, y);
    assert !IsSpace(DELIMITER);
    assert t[..k] == (x + g)[..k];
    assert forall c :: c in (x + g)[..k] ==> c in x + g;
    PlainPrefixFits(t[..k]);
  }

  /** The text up to a point behind the sign. */
  lemma {:induction false} SignPrefix(x: string, g: string, h: string, y: string, m: nat)
    requires Entry(x) && Entry(y) && Gap(g) && Gap(h) && m <= |h| + |y|
    ensures var k, es := |x| + |g| + 1 + m, Parse(ReadBack((x + g) + "§" + (h + y)[..m]));
            && (|g| + |h| >= 2 ==> Fits(es, k + 2))
            && (m == |h| + |y| && Fits(es, k + 2) ==> |g| + |h| >= 2)
  {
    var later := (h + y)[..m];
    ReadBackSign(x, g, h, y, m);
    ParseAtSign(x + g, later);
    KeptBefore(x, g);
    if m <= |h| {
      assert later == h[..m];
      BlankParsesToNothing(later);
      assert [x] + [] == [x];
    } else {
      var piece := y[..m - |h|];
      assert later == h + piece && (m == |h| + |y| ==> piece == y);
      ParsePrepend(h, piece);
      assert forall c :: c in piece ==> c in y;
      ParsePlain(piece);
      if Kept(piece) == [] {
        assert [x] + [] == [x];
      } else {
        TwoEntriesLength(x, Strip(piece));
      }
    }
  }

  lemma {:induction false} ReadBackSign(x: string, g: string, h: string, y: string, m: nat)
    requires Entry(x) && Entry(y) && Gap(g) && Gap(h) && m <= |h| + |y|
    ensures var p := (x + g) + "§" + (h + y)[..m]; ReadBack(p) == p && DELIMITER !in x + g
  {
    assert !IsSpace(DELIMITER);
    assert forall c :: c in (h + y)[..m] ==> c in h + y;
  }

  lemma {:induction false} KeptBefore(x: string, g: string)
    requires Entry(x) && Blank(g)
    ensures Kept(x + g) == [x]
  {
    StripAround("", x, g);
    assert "" + x + g == x + g;
  }

  lemma {:induction false} TwoEntriesLength(x: string, y: string)
    ensures [x] + [y] == [x, y] && |Rendered([x, y])| == |x| + |y| + 5
  {
    RenderedLength([x, y]);
    assert [x, y][1..] == [y];
    RenderedLength([y]);
  }

  lemma {:induction false} ParseAtSign(a: string, b: string)
    requires DELIMITER !in a
    ensures Parse(a + "§" + b) == Kept(a) + Parse(b)
  {
    SplitAt(a, b);
  }

  predicate Letter(c: char) { !IsSpace(c) && c != DELIMITER }

  lemma {:induction false} StripLetter(before: string, c: char, after: string)
    requires Blank(before) && Blank(after) && Letter(c)
    ensures Kept(before + [c] + after) == [[c]]
  {
    StripAround(before, [c], after);
  }

  function Signed(a: char, b: char): string { [a] + "§" + [b] }

  lemma {:induction false} SignedIsStripped(a: char, b: char)
    requires Letter(a) && Letter(b)
    ensures Strip(Signed(a, b)) == Signed(a, b)
  {
  }

  lemma {:induction false} SignSplits(a: char, b: char)
    requires Letter(a) && Letter(b)
    ensures Entries("§ " + Signed(a, b) + "\n") == [[a], [b]]
  {
    var file := "§ " + Signed(a, b) + "\n";
    var x, y := " " + [a] + "", "" + [b] + "\n";
    assert !IsSpace(a) && IsSpace('\r');
    assert '\r' !in file;
    StripLetter(" ", a, "");
    StripLetter("", b, "\n");
    assert file == "§" + x + ("§" + y);
    ParseLine(x, "§" + y);
    ParseAfterDelimiter(y);
    ParsePlain(y);
  }

  /** A section sign in a text makes two entries of it, whose written form can be longer than the
      cap, so that a later add cuts an entry that was read before. */
  lemma {:induction false} SignsCanLoseAnEntry(a: char, b: char, c: char)
    requires Letter(a) && Letter(b) && Letter(c) && c != a && c != b
    ensures var file := Added("", Signed(a, b), 6);
            && Entries(file) == [[a], [b]]
            && !(Entries(file) <= Entries(Added(file, [c], 6)))
  {
    BlankParsesToNothing("");
    SignedIsStripped(a, b);
    var entry := Signed(a, b);
    assert [] + [entry] == [entry] && Rendered([entry]) == "§ " + entry;
    SignSplits(a, b);
    var es := [[a], [b]];
    assert es[1..] == [[b]];
    RenderedLength(es);
    RenderedLength(es[1..]);
    assert Strip([c]) == [c];
    AddKeepsEarlierEntries(Added("", entry, 6), [c], 6);
  }

  /** So a removal that matches nothing can take a file over the cap. */
  lemma {:induction false} RemovalCanExceedCap(a: char, b: char, text: string)
    requires Letter(a) && Letter(b) && Strip(text) != [a] && Strip(text) != [b]
    ensures var file := Added("", Signed(a, b), 5);
            |file| <= 5 + 1 && |Removed(file, text)| == 8
  {
    SignedIsStripped(a, b);
    var entry := Signed(a, b);
    assert [] + [entry] == [entry] && Rendered([entry]) == "§ " + entry;
    SignSplits(a, b);
    var es := [[a], [b]];
    FilterAll(es, Differs(Strip(text)));
    assert es[1..] == [[b]];
    RenderedLength(es);
    RenderedLength(es[1..]);
  }
}
