/** Loading the schema: comments are cut off line by line, and the rest is split into statements. */
module Schema {
  import opened Domain
  import opened Text

  predicate DashesAt(s: string, i: int) { 0 <= i && i + 1 < |s| && s[i] == '-' && s[i + 1] == '-' }

  /** The first place where two dashes stand, or -1. */
  function IndexOfDashes(line: string): (i: int)
    ensures i == -1 || DashesAt(line, i)
    ensures forall k | DashesAt(line, k) :: 0 <= i <= k
  {
    if |line| < 2 then -1
    else if DashesAt(line, 0) then 0
    else
      var i := IndexOfDashes(line[1..]);
      assert forall k | DashesAt(line, k) :: DashesAt(line[1..], k - 1);
      if i < 0 then -1 else i + 1
  }

  function StripLine(line: string): string {
    var i := IndexOfDashes(line);
    if i >= 0 then line[..i] else line
  }

  function StripAll(lines: seq<string>): seq<string> {
    seq(|lines|, i requires 0 <= i < |lines| => StripLine(lines[i]))
  }

  function Strip(sql: string): string {
    Join(StripAll(Split(sql, '\n')), '\n')
  }

  method StripSQLComments(sql: string) returns (out: string)
    ensures out == Strip(sql)
  {
    var lines := Split(sql, '\n');
    var kept: seq<string> := [];
    for k := 0 to |lines|
      invariant kept == StripAll(lines)[..k]
    {
      var line := lines[k];
      var i := IndexOfDashes(line);
      if i >= 0 { line := line[..i]; }
      kept := kept + [line];
    }
    assert StripAll(lines)[..|lines|] == StripAll(lines);
    out := Join(kept, '\n');
  }

  function NonEmpty(pieces: seq<string>): seq<string> {
    if pieces == [] then []
    else
      var last := pieces[|pieces| - 1];
      NonEmpty(pieces[..|pieces| - 1]) + if last == "" then [] else [last]
  }

  /** What applySchema executes, in order. */
  function Statements(sql: string): seq<string> {
    NonEmpty(TrimAll(Split(Strip(sql), ';')))
  }

  /** Executes the statements one by one and stops at the first that the database does not accept. */
  method ApplySchema(sql: string, accepts: nat -> bool) returns (executed: seq<string>, failed: Option<string>)
    ensures Executes(Statements(sql), accepts, executed, failed)
  {
    var code := StripSQLComments(sql);
    var pieces := Split(code, ';');
    executed, failed := ExecuteAll(pieces, accepts);
  }

  /** A prefix of the statements has been executed: all of them, or those before the first refused one. */
  predicate Executes(statements: seq<string>, accepts: nat -> bool, executed: seq<string>, failed: Option<string>) {
    && executed <= statements && (forall k | 0 <= k < |executed| :: accepts(k))
    && (failed == None <==> executed == statements)
    && (failed.Some? ==> |executed| < |statements| && !accepts(|executed|) && failed.value == statements[|executed|])
  }

  method ExecuteAll(pieces: seq<string>, accepts: nat -> bool) returns (executed: seq<string>, failed: Option<string>)
    ensures Executes(NonEmpty(TrimAll(pieces)), accepts, executed, failed)
  {
    hide TrimSpace;
    ghost var trimmed := TrimAll(pieces);
    executed := [];
    for i := 0 to |pieces|
      invariant executed == NonEmpty(trimmed[..i]) && forall k | 0 <= k < |executed| :: accepts(k)
    {
      hide NonEmpty;
      var s := TrimSpace(pieces[i]);
      NonEmptyStep(trimmed, i);
      NonEmptyGrows(trimmed, i);
      if s != "" {
        if !accepts(|executed|) { return executed, Some(s); }
        executed := executed + [s];
      }
    }
    assert trimmed[..|pieces|] == trimmed;
    failed := None;
  }

  lemma NonEmptyStep(pieces: seq<string>, i: nat)
    requires i < |pieces|
    ensures NonEmpty(pieces[..i + 1]) == NonEmpty(pieces[..i]) + if pieces[i] == "" then [] else [pieces[i]]
  {
    assert pieces[..i + 1][..i] == pieces[..i];
  }

  lemma {:induction false} NonEmptyGrows(pieces: seq<string>, i: nat)
    requires i < |pieces|
    ensures var before, all := NonEmpty(pieces[..i]), NonEmpty(pieces);
      before <= all && (pieces[i] != "" ==> |before| < |all| && all[|before|] == pieces[i])
    decreases |pieces|
  {
    var n := |pieces| - 1;
    if i < n {
      NonEmptyGrows(pieces[..n], i);
      assert pieces[..n][..i] == pieces[..i];
    }
  }

  // ---------- one pass does the same ----------

  /** The text that a scan leaves which is either in code or in a comment. */
  function Uncommented(s: string, comment: bool): string {
    if s == "" then ""
    else if comment then (if s[0] == '\n' then "\n" + Uncommented(s[1..], false) else Uncommented(s[1..], true))
    else if |s| >= 2 && s[0] == '-' && s[1] == '-' then Uncommented(s[1..], true)
    else [s[0]] + Uncommented(s[1..], false)
  }

  /** The pieces that a single scan cuts, knowing only whether it is inside a comment. */
  function Scan(s: string, comment: bool): (r: seq<string>)
    ensures r != []
  {
    if s == "" then [""]
    else if comment then (if s[0] == '\n' then Push('\n', ';', Scan(s[1..], false)) else Scan(s[1..], true))
    else if |s| >= 2 && s[0] == '-' && s[1] == '-' then Scan(s[1..], true)
    else Push(s[0], ';', Scan(s[1..], false))
  }

  lemma {:induction false} ScanSplits(s: string, comment: bool)
    ensures Scan(s, comment) == Split(Uncommented(s, comment), ';')
  {
    if s != "" {
      ScanSplits(s[1..], true);
      ScanSplits(s[1..], false);
      hide Push;
      var rest := Uncommented(s[1..], false);
      assert ([s[0]] + rest)[1..] == rest && ("\n" + rest)[1..] == rest;
    }
  }

  lemma StripLineStep(c: char, line: string)
    ensures StripLine([c] + line) == if DashesAt([c] + line, 0) then "" else [c] + StripLine(line)
  {
    var whole := [c] + line;
    assert whole[1..] == line;
  }

  lemma JoinFirst(c: char, first: string, rest: seq<string>, sep: char)
    ensures Join([[c] + first] + rest, sep) == [c] + Join([first] + rest, sep)
  {
    assert ([[c] + first] + rest)[1..] == rest && ([first] + rest)[1..] == rest;
  }

  /** What the lines leave when the scan of the first one begins inside a comment or in code. */
  function StripLines(lines: seq<string>, comment: bool): seq<string>
    requires lines != []
  {
    [if comment then "" else StripLine(lines[0])] + StripAll(lines[1..])
  }

  lemma {:induction false} UncommentedIsStripped(s: string, comment: bool)
    ensures Uncommented(s, comment) == Join(StripLines(Split(s, '\n'), comment), '\n')
  {
    if s != "" {
      UncommentedIsStripped(s[1..], true);
      UncommentedIsStripped(s[1..], false);
      var lines := Split(s[1..], '\n');
      assert [s[0]] + s[1..] == s;
      if s[0] == '\n' {
        StripAfterNewline(lines, comment);
      } else {
        FirstLineOf(s[1..]);
        StripAfterChar(s[0], lines, comment);
        hide StripLines;
      }
      hide Split, Join, StripLine;
    }
  }

  lemma StripAfterNewline(lines: seq<string>, comment: bool)
    requires lines != []
    ensures Join(StripLines([""] + lines, comment), '\n') == "\n" + Join(StripLines(lines, false), '\n')
  {
    var kept := StripLines([""] + lines, comment);
    assert ([""] + lines)[1..] == lines;
    assert kept[1..] == StripAll(lines) == StripLines(lines, false);
    assert kept[0] == "";
  }

  lemma StripAfterChar(c: char, lines: seq<string>, comment: bool)
    requires lines != []
    ensures var with := [[c] + lines[0]] + lines[1..];
      Join(StripLines(with, comment), '\n') ==
      if comment then Join(StripLines(lines, true), '\n')
      else if DashesAt([c] + lines[0], 0) then Join(StripLines(lines, true), '\n')
      else [c] + Join(StripLines(lines, false), '\n')
  {
    StripLineStep(c, lines[0]);
    JoinFirst(c, StripLine(lines[0]), StripAll(lines[1..]), '\n');
    assert ([[c] + lines[0]] + lines[1..])[1..] == lines[1..];
    hide StripLine, Join;
  }

  lemma FirstLineOf(s: string)
    ensures var first := Split(s, '\n')[0];
      s != "" && s[0] == '-' <==> first != "" && first[0] == '-'
  {}

  lemma StrippedByScan(sql: string)
    ensures Strip(sql) == Uncommented(sql, false)
  {
    UncommentedIsStripped(sql, false);
    var lines := Split(sql, '\n');
    assert StripLines(lines, false) == StripAll(lines);
  }

  /** For every input, the statements are those that one scan with a code-or-comment state finds. */
  lemma LoadingIsOneScan(sql: string)
    ensures Statements(sql) == NonEmpty(TrimAll(Scan(sql, false)))
  {
    hide Split, Scan, Uncommented, TrimAll, NonEmpty, Strip;
    StrippedByScan(sql);
    ScanSplits(sql, false);
  }

  // ---------- what stripping keeps and removes ----------

  lemma StripLineKeeps(line: string, c: char)
    requires c !in line
    ensures c !in StripLine(line)
  {}

  lemma StripLineTwice(line: string)
    ensures StripLine(StripLine(line)) == StripLine(line)
  {
    var cut := StripLine(line);
    assert forall k | DashesAt(cut, k) :: DashesAt(line, k);
  }

  /** Line k of the stripped text is line k of the input, cut at its first comment. */
  lemma StripKeepsLines(sql: string)
    ensures Split(Strip(sql), '\n') == StripAll(Split(sql, '\n'))
  {
    var lines := Split(sql, '\n');
    JoinOfSplit(sql, '\n');
    forall i | 0 <= i < |lines| ensures '\n' !in StripAll(lines)[i] { StripLineKeeps(lines[i], '\n'); }
    SplitOfJoin(StripAll(lines), '\n');
  }

  lemma StripIsIdempotent(sql: string)
    ensures Strip(Strip(sql)) == Strip(sql)
  {
    StripKeepsLines(sql);
    var lines := Split(sql, '\n');
    forall i | 0 <= i < |lines|
      ensures StripLine(StripLine(lines[i])) == StripLine(lines[i])
    { StripLineTwice(lines[i]); }
    hide StripLine;
    assert StripAll(StripAll(lines)) == StripAll(lines);
  }

  lemma {:induction false} NoDashesUncommented(s: string, comment: bool)
    ensures var u := Uncommented(s, comment);
      (u != "" && u[0] == '-' ==> !comment && s != "" && s[0] == '-') && forall k :: !DashesAt(u, k)
  {
    if s != "" {
      NoDashesUncommented(s[1..], true);
      NoDashesUncommented(s[1..], false);
      var u, rest := Uncommented(s, comment), Uncommented(s[1..], false);
      if u == [s[0]] + rest {
        forall k ensures !DashesAt(u, k) {
          assert k > 0 && DashesAt(u, k) ==> DashesAt(rest, k - 1);
        }
      }
    }
  }

  predicate NoComment(code: string) { forall k | 0 <= k && k + 1 < |code| :: !(code[k] == '-' && code[k + 1] == '-') }

  lemma StripLeavesNoComment(sql: string)
    ensures NoComment(Strip(sql))
  {
    StrippedByScan(sql);
    NoDashesUncommented(sql, false);
    var code := Strip(sql);
    forall k | 0 <= k && k + 1 < |code| ensures !(code[k] == '-' && code[k + 1] == '-') { assert !DashesAt(code, k); }
  }

  // ---------- loading undoes printing ----------

  lemma {:induction false} CodeStays(s: string)
    requires forall k :: !DashesAt(s, k)
    ensures Uncommented(s, false) == s
  {
    if s != "" {
      assert forall k | DashesAt(s[1..], k) :: DashesAt(s, k + 1);
      CodeStays(s[1..]);
      assert !DashesAt(s, 0);
      assert s == [s[0]] + s[1..];
    }
  }

  lemma {:induction false} NonEmptyStays(pieces: seq<string>)
    requires forall i | 0 <= i < |pieces| :: pieces[i] != ""
    ensures NonEmpty(pieces) == pieces
  {
    if pieces != [] {
      var n := |pieces| - 1;
      NonEmptyStays(pieces[..n]);
      assert pieces == pieces[..n] + [pieces[n]];
    }
  }

  /**
   * Statements that are printed one after another, each with a semicolon after it and with any white
   * space around it, are just those that are executed, in order.
   */
  lemma LoadingUndoesPrinting(entries: seq<Entry>, rest: string)
    requires Blank(rest) && forall i | 0 <= i < |entries| ::
               entries[i].Padded() && entries[i].name != "" && ';' !in entries[i].name
               && TrimSpace(entries[i].name) == entries[i].name
    requires NoComment(Join(Texts(entries + [Entry(rest, "", "")]), ';'))
    ensures Statements(Join(Texts(entries + [Entry(rest, "", "")]), ';')) == Listed(entries)
  {
    var all := entries + [Entry(rest, "", "")];
    var sql := Join(Texts(all), ';');
    hide IsSpace, Blank, Statements, TrimAll, TrimSpace, Split, Join, Texts, NonEmpty, NoComment;
    CodeStatements(sql);
    PrintedPieces(entries, rest);
    ListedNames(entries);
    LastIsDropped(Listed(entries));
  }

  lemma ListedNames(entries: seq<Entry>)
    ensures |Listed(entries)| == |entries| && forall i | 0 <= i < |entries| :: Listed(entries)[i] == entries[i].name
  {}

  lemma PrintedPieces(entries: seq<Entry>, rest: string)
    requires Blank(rest) && forall i | 0 <= i < |entries| ::
               entries[i].Padded() && ';' !in entries[i].name && TrimSpace(entries[i].name) == entries[i].name
    ensures TrimAll(Split(Join(Texts(entries + [Entry(rest, "", "")]), ';'), ';')) == Listed(entries) + [""]
  {
    var all := entries + [Entry(rest, "", "")];
    assert !IsSpace(';') && TrimSpace("") == "";
    hide IsSpace, TrimSpace, Split, Join;
    SplitOfPrinted(all, ';');
    hide TrimAll;
    assert Listed(all) == Listed(entries) + [""];
  }

  lemma LastIsDropped(pieces: seq<string>)
    requires forall i | 0 <= i < |pieces| :: pieces[i] != ""
    ensures NonEmpty(pieces + [""]) == pieces
  {
    assert (pieces + [""])[..|pieces|] == pieces;
    NonEmptyStays(pieces);
  }

  lemma CodeStatements(sql: string)
    requires NoComment(sql)
    ensures Statements(sql) == NonEmpty(TrimAll(Split(sql, ';')))
  {
    hide Strip, Uncommented, NonEmpty, TrimAll, Split;
    StrippedByScan(sql);
    assert forall k :: !DashesAt(sql, k);
    CodeStays(sql);
  }
}
