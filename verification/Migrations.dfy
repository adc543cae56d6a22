/** `splitSQL` of the Postgres store: strip comment and blank lines, then split on semicolons. */
module Migrations {
  import opened Text
  import opened Seqs

  predicate Dropped(line: string) {
    var t := TrimSpace(line);
    t == "" || HasPrefix(t, "--")
  }

  function Kept(lines: seq<string>): seq<string> {
    if lines == [] then []
    else (if Dropped(lines[0]) then [] else [lines[0]]) + Kept(lines[1..])
  }

  function Terminated(lines: seq<string>): string {
    if lines == [] then "" else lines[0] + "\n" + Terminated(lines[1..])
  }

  function NonBlank(pieces: seq<string>): seq<string> {
    if pieces == [] then []
    else (if TrimSpace(pieces[0]) != "" then [pieces[0]] else []) + NonBlank(pieces[1..])
  }

  /** What a migration text stands for: the non-blank pieces between the semicolons of its kept lines. */
  function Statements(s: string): seq<string> {
    NonBlank(Split(Terminated(Kept(Split(s, '\n'))), ';'))
  }

  lemma {:induction false} KeptConcat(a: seq<string>, b: seq<string>)
    ensures Kept(a + b) == Kept(a) + Kept(b)
  {
    if a == [] {
      assert a + b == b;
    } else {
      assert (a + b)[1..] == a[1..] + b;
      KeptConcat(a[1..], b);
    }
  }

  lemma {:induction false} TerminatedConcat(a: seq<string>, b: seq<string>)
    ensures Terminated(a + b) == Terminated(a) + Terminated(b)
  {
    if a == [] {
      assert a + b == b;
    } else {
      assert (a + b)[1..] == a[1..] + b;
      TerminatedConcat(a[1..], b);
    }
  }

  lemma {:induction false} NonBlankConcat(a: seq<string>, b: seq<string>)
    ensures NonBlank(a + b) == NonBlank(a) + NonBlank(b)
  {
    if a == [] {
      assert a + b == b;
    } else {
      assert (a + b)[1..] == a[1..] + b;
      NonBlankConcat(a[1..], b);
    }
  }

  method SplitSql(s: string) returns (out: seq<string>)
    ensures out == Statements(s)
  {
    hide Kept, Terminated, NonBlank, Split, TrimSpace;
    var clean := "";
    var lines := Split(s, '\n');
    NothingKept();
    for i := 0 to |lines|
      invariant clean == Terminated(Kept(lines[..i]))
    {
      KeptOneMore(lines[..i], lines[i]);
      assert lines[..i + 1] == lines[..i] + [lines[i]];
      var t := TrimSpace(lines[i]);
      if t == "" || HasPrefix(t, "--") {
        continue;
      }
      clean := clean + lines[i];
      clean := clean + "\n";
    }
    assert lines[..|lines|] == lines;
    out := [];
    var pieces := Split(clean, ';');
    for i := 0 to |pieces|
      invariant out == NonBlank(pieces[..i])
    {
      NonBlankOneMore(pieces[..i], pieces[i]);
      assert pieces[..i + 1] == pieces[..i] + [pieces[i]];
      if TrimSpace(pieces[i]) != "" {
        out := out + [pieces[i]];
      }
    }
    assert pieces[..|pieces|] == pieces;
  }

  lemma NothingKept()
    ensures Terminated(Kept([])) == "" && NonBlank([]) == []
  {}

  lemma KeptOneMore(lines: seq<string>, line: string)
    ensures Terminated(Kept(lines + [line])) == Terminated(Kept(lines)) + (if Dropped(line) then "" else line + "\n")
  {
    KeptConcat(lines, [line]);
    TerminatedConcat(Kept(lines), Kept([line]));
    assert [line][1..] == [];
    hide Dropped;
    assert Kept([line]) == if Dropped(line) then [] else [line];
  }

  lemma NonBlankOneMore(pieces: seq<string>, p: string)
    ensures NonBlank(pieces + [p]) == NonBlank(pieces) + (if TrimSpace(p) != "" then [p] else [])
  {
    NonBlankConcat(pieces, [p]);
    hide TrimSpace;
    assert [p][1..] == [];
  }

  /** No line holds a line break. */
  predicate Unbroken(lines: seq<string>) {
    forall l :: l in lines ==> '\n' !in l
  }

  predicate AllDropped(lines: seq<string>) {
    forall l :: l in lines ==> Dropped(l)
  }

  /** Adding any blank or comment lines at one place, semicolons in them included, changes nothing. */
  lemma DroppedLinesAreInvisible(before: seq<string>, junk: seq<string>, after: seq<string>)
    requires Unbroken(before + junk + after) && AllDropped(junk)
    ensures Statements(Join(before + junk + after, "\n")) == Statements(Join(before + after, "\n"))
  {
    KeptOfJoined(before + junk + after);
    KeptOfJoined(before + after);
    assert Kept(before + junk + after) == Kept(before + after) by {
      KeptNothing(junk);
      KeptConcat(before + junk, after);
      KeptConcat(before, junk);
      KeptConcat(before, after);
    }
  }

  lemma {:induction false} KeptNothing(junk: seq<string>)
    requires AllDropped(junk)
    ensures Kept(junk) == []
  {
    if junk != [] { KeptNothing(junk[1..]); }
  }

  lemma KeptOfJoined(lines: seq<string>)
    requires Unbroken(lines)
    ensures Kept(Split(Join(lines, "\n"), '\n')) == Kept(lines)
  {
    if lines == [] {
      assert Dropped("");
    } else {
      SplitJoin(lines, '\n');
    }
  }

  /** A statement that the renderer may write: no semicolon, and no blank or comment line. */
  predicate Plain(stmt: string) {
    ';' !in stmt && forall l :: l in Split(stmt, '\n') ==> !Dropped(l)
  }

  function Render(stmts: seq<string>): string {
    if stmts == [] then "" else stmts[0] + ";\n" + Render(stmts[1..])
  }

  predicate SameTrimmed(a: seq<string>, b: seq<string>) {
    |a| == |b| && forall i :: 0 <= i < |b| ==> TrimSpace(a[i]) == TrimSpace(b[i])
  }

  /** Splitting a rendered migration returns its statements, up to surrounding white space. */
  lemma RenderThenSplit(stmts: seq<string>)
    requires forall s :: s in stmts ==> Plain(s)
    ensures SameTrimmed(Statements(Render(stmts)), stmts)
  {
    CleaningKeepsRendered(stmts);
    assert "" + Render(stmts) == Render(stmts);
    PiecesOfRendered("", stmts);
  }

  lemma {:induction false} CleaningKeepsRendered(stmts: seq<string>)
    requires forall s :: s in stmts ==> Plain(s)
    ensures Terminated(Kept(Split(Render(stmts), '\n'))) == Render(stmts)
  {
    if stmts == [] {
      assert Dropped("");
    } else {
      assert stmts[0] in stmts;
      CleaningKeepsOne(stmts[0], Render(stmts[1..]));
      CleaningKeepsRendered(stmts[1..]);
    }
  }

  lemma CleaningKeepsOne(s: string, rest: string)
    requires Plain(s)
    ensures Terminated(Kept(Split(s + ";\n" + rest, '\n'))) == s + ";\n" + Terminated(Kept(Split(rest, '\n')))
  {
    hide Dropped, Split, Kept, Terminated, Join;
    var lines := Split(s, '\n');
    var n := |lines| - 1;
    var ended := lines[..n] + [lines[n] + ";"];
    assert s + ";\n" + rest == (s + ";") + ['\n'] + rest;
    SplitAtSeparator(s + ";", '\n', rest);
    SplitExtend(s, ";", '\n');
    assert Split(s + ";", '\n') == ended;
    assert lines[n] in lines;
    SemicolonKeepsLine(lines[n]);
    KeptEverything(ended);
    KeptConcat(ended, Split(rest, '\n'));
    TerminatedConcat(ended, Kept(Split(rest, '\n')));
    TerminatedIsJoined(ended);
    assert Join(ended, "\n") == s + ";";
  }

  lemma {:induction false} KeptEverything(lines: seq<string>)
    requires forall l :: l in lines ==> !Dropped(l)
    ensures Kept(lines) == lines
  {
    if lines != [] { KeptEverything(lines[1..]); }
  }

  lemma {:induction false} TerminatedIsJoined(lines: seq<string>)
    requires lines != []
    ensures Terminated(lines) == Join(lines, "\n") + "\n"
  {
    if |lines| > 1 { TerminatedIsJoined(lines[1..]); }
  }

  lemma SemicolonKeepsLine(line: string)
    requires !Dropped(line)
    ensures !Dropped(line + ";")
  {
    TrimSpaceBlank(line);
    var k := TrimLeftShape(line);
    var t := TrimLeft(line);
    assert line + ";" == line[..k] + (t + ";");
    TrimLeftBlank(line[..k], t + ";");
    assert TrimSpace(line + ";") == t + ";";
    if HasPrefix(t + ";", "--") {
      assert (t + ";")[0] == '-' && (t + ";")[1] == '-';
      TrimRightKeeps(t, 1);
      assert false;
    }
  }

  lemma {:induction false} PiecesOfRendered(w: string, stmts: seq<string>)
    requires Blank(w) && ';' !in w && forall s :: s in stmts ==> Plain(s)
    decreases stmts
    ensures SameTrimmed(NonBlank(Split(w + Render(stmts), ';')), stmts)
  {
    if stmts == [] {
      assert w + "" == w;
      SplitWithout(w, ';');
      TrimSpaceBlank(w);
    } else {
      var s, rest := stmts[0], Render(stmts[1..]);
      assert s in stmts;
      hide Split, NonBlank, TrimSpace, Dropped, SameTrimmed;
      PiecesOfRendered("\n", stmts[1..]);
      PieceOfRendered(w, s, rest);
      Regrouped(w, s, rest);
      SameTrimmedMore(w + s, NonBlank(Split("\n" + rest, ';')), stmts);
    }
  }

  lemma Regrouped(w: string, s: string, rest: string)
    ensures w + (s + ";\n" + rest) == (w + s) + [';'] + ("\n" + rest)
  {}

  lemma SameTrimmedMore(p: string, ps: seq<string>, stmts: seq<string>)
    requires stmts != [] && TrimSpace(p) == TrimSpace(stmts[0]) && SameTrimmed(ps, stmts[1..])
    ensures SameTrimmed([p] + ps, stmts)
  {
    hide TrimSpace;
    assert forall i :: 0 < i < |stmts| ==> stmts[i] == stmts[1..][i - 1];
  }

  /** The piece before the first semicolon. */
  lemma PieceOfRendered(w: string, s: string, rest: string)
    requires Blank(w) && ';' !in w && Plain(s)
    ensures NonBlank(Split((w + s) + [';'] + ("\n" + rest), ';')) == [w + s] + NonBlank(Split("\n" + rest, ';'))
    ensures TrimSpace(w + s) == TrimSpace(s)
  {
    SplitAtSeparator(w + s, ';', "\n" + rest);
    SplitWithout(w + s, ';');
    TrimLeftBlank(w, s);
    PlainIsNotBlank(s);
    TrimSpaceBlank(s);
    assert TrimSpace(w + s) == TrimSpace(s);
    hide Split, TrimSpace, Plain, Blank;
    NonBlankConcat([w + s], Split("\n" + rest, ';'));
    NothingKept();
    assert [w + s][1..] == [];
  }

  lemma PlainIsNotBlank(s: string)
    requires Plain(s)
    ensures !Blank(s)
  {
    var lines := Split(s, '\n');
    var first := lines[0];
    assert first in lines;
    TrimSpaceBlank(first);
    assert first <= Join(lines, "\n") == s;
    assert forall i :: 0 <= i < |first| ==> s[i] == first[i];
  }

  /** A line is dropped exactly when it is white space, or white space before two dashes. */
  lemma DroppedTells(line: string)
    ensures Dropped(line) <==> Blank(line) || exists w, rest :: line == w + "--" + rest && Blank(w)
  {
    TrimSpaceBlank(line);
    var k := TrimLeftShape(line);
    if Dropped(line) && !Blank(line) {
      var left, right := TrimTells(line);
      var t := TrimSpace(line);
      assert t == "--" + t[2..];
      assert line == left + "--" + (t[2..] + right);
    }
    if w, rest :| line == w + "--" + rest && Blank(w) {
      CommentIsDropped(line, w, rest);
    }
  }

  lemma CommentIsDropped(line: string, w: string, rest: string)
    requires line == w + "--" + rest && Blank(w)
    ensures Dropped(line)
  {
    assert line == w + ("--" + rest);
    TrimLeftBlank(w, "--" + rest);
    assert TrimLeft(line) == "--" + rest;
    TrimRightKeeps("--" + rest, 1);
  }

  function IsKept(): string -> bool {
    (line: string) => !Dropped(line)
  }

  function IsStatement(): string -> bool {
    (piece: string) => !Blank(piece)
  }

  function WithBreak(line: string): string {
    line + "\n"
  }

  /**
   The statements are the pieces between semicolons that are not white space, as they stand in the text
   that the kept lines make up.
   */
  lemma StatementsTell(s: string)
    ensures Statements(s) == Filter(IsStatement(), Split(Flatten(Map(WithBreak, Filter(IsKept(), Split(s, '\n')))), ';'))
  {
    var lines := Split(s, '\n');
    KeptIsFilter(lines);
    TerminatedIsFlat(Kept(lines));
    NonBlankIsFilter(Split(Terminated(Kept(lines)), ';'));
  }

  lemma {:induction false} KeptIsFilter(lines: seq<string>)
    ensures Kept(lines) == Filter(IsKept(), lines)
  {
    hide Dropped;
    if lines != [] {
      KeptIsFilter(lines[1..]);
    }
  }

  lemma {:induction false} TerminatedIsFlat(lines: seq<string>)
    ensures Terminated(lines) == Flatten(Map(WithBreak, lines))
  {
    if lines != [] {
      TerminatedIsFlat(lines[1..]);
    }
  }

  lemma {:induction false} NonBlankIsFilter(pieces: seq<string>)
    ensures NonBlank(pieces) == Filter(IsStatement(), pieces)
  {
    if pieces != [] {
      NonBlankIsFilter(pieces[1..]);
      TrimSpaceBlank(pieces[0]);
      hide TrimSpace, Blank;
    }
  }
}
