/** The results report (`generate_report` in src/ui/dialogs/results.rs): a header
    with the seat count, then a four-column table of a vote-total row, a blank row
    and, per party in descending order of total, a party row, one row per
    candidate in descending order of votes, and a blank row; every column is
    padded to the widest entry of that column.

    The vote map, the party iteration order and the candidate ranking are those of
    module DHondt. `format_num` and the `{:.2}` rendering of the f32 percentage are
    not part of this model: the report takes them as the functions of a
    `Formatters` value. */
module Report {
  import opened DHondt
  import opened Fmt

  /** One row of the table: caption, formatted votes, formatted percentage, and the
      seat count (party row) or the status marker (candidate row). */
  datatype Line = Line(caption: string, votes: string, percent: string, status: string)

  /** `format_num` on a vote count, and the two-decimal rendering of
      `votes / total * 100` for a vote count and the grand total. */
  datatype Formatters = Formatters(num: nat -> string, percent: (nat, nat) -> string)

  /** The `max_widths` tuple: one width per column, in bytes. */
  datatype Widths = Widths(caption: nat, votes: nat, percent: nat, status: nat)

  const Blank: Line := Line("", "", "", "")

  /** The marker of an elected candidate, U+2713 CHECK MARK. */
  const Tick: string := "\U{2713}"

  /** The four-space gutter between columns. */
  const Gutter: string := "    "

  function Header(seatCount: nat): string
  {
    "Seats to assign: " + NatToString(seatCount) + "\n\n"
  }

  /** `votes_total`: the fold adding up the votes of every entry. */
  function TotalVotes(votes: seq<Vote>): nat
  {
    if votes == [] then 0 else TotalVotes(votes[..|votes| - 1]) + votes[|votes| - 1].votes
  }

  /** The pairs (party, value) for the listed parties. */
  function Pairs(parties: seq<string>, m: map<string, nat>): (ps: seq<Entry>)
    requires Covers(parties, m)
    ensures |ps| == |parties|
    ensures forall i :: 0 <= i < |parties| ==> ps[i] == (parties[i], m[parties[i]])
  {
    seq(|parties|, i requires 0 <= i < |parties| => (parties[i], m[parties[i]]))
  }

  /** `party_totals` collected into a vector, in the map's iteration order. */
  function PartyTotals(votes: seq<Vote>): seq<Entry>
  {
    Pairs(PartyOrder(votes), VotesByParty(votes))
  }

  /** `party_totals_sorted`: the party totals after the stable descending sort. */
  function SortedParties(votes: seq<Vote>): seq<Entry>
  {
    RankByVotes(PartyTotals(votes))
  }

  /** A party's candidates after the stable descending sort. */
  function Ranked(votes: seq<Vote>, party: string): seq<Entry>
  {
    RankByVotes(PartyCandidates(votes, party))
  }

  /** `results.get(party).unwrap_or(&vec![])`. */
  function ListOf(results: map<string, seq<string>>, party: string): seq<string>
  {
    if party in results then results[party] else []
  }

  /** `format!("{percentage:.2}%")`. */
  function Percent(f: Formatters, votes: nat, total: nat): string
  {
    f.percent(votes, total) + "%"
  }

  /** `elected_sym` for the `i`-th ranked candidate: "?" when it is not listed but
      an earlier candidate with the same votes is; the tick when it is listed; a
      blank otherwise. */
  function Marker(ranked: seq<Entry>, i: nat, listed: seq<string>): string
    requires i < |ranked|
  {
    var elected := ranked[i].0 in listed;
    if !elected && exists j | 0 <= j < i :: ranked[j].1 == ranked[i].1 && ranked[j].0 in listed then "?"
    else if elected then Tick
    else " "
  }

  function TotalLine(f: Formatters, total: nat): Line
  {
    Line("Total of votes:", f.num(total), "", "")
  }

  /** A party's row: name and colon, total, percentage and the length of its list. */
  function PartyLine(f: Formatters, party: Entry, total: nat, listed: seq<string>): Line
  {
    Line(party.0 + ":", f.num(party.1), Percent(f, party.1, total), NatToString(|listed|))
  }

  function CandidateLine(f: Formatters, ranked: seq<Entry>, i: nat, total: nat, listed: seq<string>): Line
    requires i < |ranked|
  {
    Line("  - " + ranked[i].0, f.num(ranked[i].1), Percent(f, ranked[i].1, total), Marker(ranked, i, listed))
  }

  /** The rows of the first `k` ranked candidates: row `i` is candidate `i`'s. */
  function CandidateLines(f: Formatters, ranked: seq<Entry>, k: nat, total: nat, listed: seq<string>): (ls: seq<Line>)
    requires k <= |ranked|
    ensures |ls| == k
    ensures forall i :: 0 <= i < k ==> ls[i] == CandidateLine(f, ranked, i, total, listed)
  {
    if k == 0 then []
    else CandidateLines(f, ranked, k - 1, total, listed) + [CandidateLine(f, ranked, k - 1, total, listed)]
  }

  /** A party's block: its row, its candidates' rows and a blank row. */
  function Section(f: Formatters, votes: seq<Vote>, results: map<string, seq<string>>, party: Entry, total: nat): seq<Line>
  {
    var ranked := Ranked(votes, party.0);
    var listed := ListOf(results, party.0);
    [PartyLine(f, party, total, listed)] + CandidateLines(f, ranked, |ranked|, total, listed) + [Blank]
  }

  /** The blocks of the listed parties, in order. */
  function Sections(f: Formatters, votes: seq<Vote>, results: map<string, seq<string>>, parties: seq<Entry>, total: nat): seq<Line>
  {
    if parties == [] then []
    else
      Sections(f, votes, results, parties[..|parties| - 1], total)
        + Section(f, votes, results, parties[|parties| - 1], total)
  }

  lemma AppendAssoc<T>(a: seq<T>, b: seq<T>, c: seq<T>)
    ensures (a + b) + c == a + (b + c)
  {
  }

  lemma SectionsSnoc(f: Formatters, votes: seq<Vote>, results: map<string, seq<string>>, parties: seq<Entry>, k: nat, total: nat)
    requires k < |parties|
    ensures Sections(f, votes, results, parties[..k + 1], total)
      == Sections(f, votes, results, parties[..k], total) + Section(f, votes, results, parties[k], total)
  {
    var upto := parties[..k + 1];
    assert upto[..k] == parties[..k] && upto[k] == parties[k];
  }

  /** The whole line table. */
  function Lines(f: Formatters, votes: seq<Vote>, results: map<string, seq<string>>): seq<Line>
  {
    var total := TotalVotes(votes);
    [TotalLine(f, total), Blank] + Sections(f, votes, results, SortedParties(votes), total)
  }

  /** The largest byte length in each column (0 for no rows). */
  function ColumnWidths(lines: seq<Line>): Widths
  {
    if lines == [] then Widths(0, 0, 0, 0)
    else
      var w := ColumnWidths(lines[..|lines| - 1]);
      var l := lines[|lines| - 1];
      Widths(Max(w.caption, ByteLen(l.caption)), Max(w.votes, ByteLen(l.votes)),
             Max(w.percent, ByteLen(l.percent)), Max(w.status, ByteLen(l.status)))
  }

  /** `"{:<width1$}    {:>width2$}    {:>width3$}    {:>width4$}\n"`. */
  function FormatRow(l: Line, w: Widths): string
  {
    PadEnd(l.caption, w.caption) + Gutter + PadStart(l.votes, w.votes) + Gutter
      + PadStart(l.percent, w.percent) + Gutter + PadStart(l.status, w.status) + "\n"
  }

  /** The formatted rows, in order. */
  function Rows(lines: seq<Line>, w: Widths): string
  {
    if lines == [] then ""
    else Rows(lines[..|lines| - 1], w) + FormatRow(lines[|lines| - 1], w)
  }

  lemma RowsSnoc(lines: seq<Line>, i: nat, w: Widths)
    requires i < |lines|
    ensures Rows(lines[..i + 1], w) == Rows(lines[..i], w) + FormatRow(lines[i], w)
  {
    var upto := lines[..i + 1];
    assert upto[..i] == lines[..i] && upto[i] == lines[i];
  }

  /** The report text. */
  function Render(seatCount: nat, votes: seq<Vote>, results: map<string, seq<string>>, f: Formatters): string
  {
    var lines := Lines(f, votes, results);
    Header(seatCount) + Rows(lines, ColumnWidths(lines))
  }

  // ---------------------------------------------------------------------------
  // Column widths and row layout

  /** Every cell of `l` is at most as many bytes as its column's width. */
  predicate Fits(l: Line, w: Widths)
  {
    ByteLen(l.caption) <= w.caption && ByteLen(l.votes) <= w.votes
      && ByteLen(l.percent) <= w.percent && ByteLen(l.status) <= w.status
  }

  /** The caption cells the width loop measures: a party's name and its colon,
      and a candidate's name behind the four-character bullet. */
  lemma CaptionBytes(f: Formatters, party: Entry, ranked: seq<Entry>, i: nat, total: nat, listed: seq<string>)
    requires i < |ranked|
    ensures ByteLen(PartyLine(f, party, total, listed).caption) == ByteLen(party.0) + 1
    ensures ByteLen(CandidateLine(f, ranked, i, total, listed).caption) == 4 + ByteLen(ranked[i].0)
  {
    ByteLenConcat(party.0, ":");
    ByteLenConcat("  - ", ranked[i].0);
    assert ByteLen(":") == 1 by {
      assert ":"[..0] == [];
    }
    assert ByteLen("  - ") == 4 by {
      assert "  - "[..3] == "  -";
      assert "  -"[..2] == "  ";
      assert "  "[..1] == " ";
      assert " "[..0] == [];
    }
  }

  /** The computed widths fit every row. */
  lemma {:induction false} ColumnWidthsFit(lines: seq<Line>)
    ensures forall i :: 0 <= i < |lines| ==> Fits(lines[i], ColumnWidths(lines))
  {
    if lines != [] {
      var n := |lines|;
      var pre := lines[..n - 1];
      ColumnWidthsFit(pre);
      forall i | 0 <= i < n - 1
        ensures Fits(lines[i], ColumnWidths(lines))
      {
        assert lines[i] == pre[i];
      }
    }
  }

  /** Each width is the byte length of some row's cell in that column (no wider
      than needed). */
  lemma {:induction false} ColumnWidthsAttained(lines: seq<Line>)
    requires lines != []
    ensures var w := ColumnWidths(lines);
      && (exists i :: 0 <= i < |lines| && ByteLen(lines[i].caption) == w.caption)
      && (exists i :: 0 <= i < |lines| && ByteLen(lines[i].votes) == w.votes)
      && (exists i :: 0 <= i < |lines| && ByteLen(lines[i].percent) == w.percent)
      && (exists i :: 0 <= i < |lines| && ByteLen(lines[i].status) == w.status)
  {
    var n := |lines|;
    var pre := lines[..n - 1];
    var last := lines[n - 1];
    var w := ColumnWidths(lines);
    if n > 1 {
      ColumnWidthsAttained(pre);
      var v := ColumnWidths(pre);
      var i1 :| 0 <= i1 < n - 1 && ByteLen(pre[i1].caption) == v.caption;
      var i2 :| 0 <= i2 < n - 1 && ByteLen(pre[i2].votes) == v.votes;
      var i3 :| 0 <= i3 < n - 1 && ByteLen(pre[i3].percent) == v.percent;
      var i4 :| 0 <= i4 < n - 1 && ByteLen(pre[i4].status) == v.status;
      assert lines[i1] == pre[i1] && lines[i2] == pre[i2] && lines[i3] == pre[i3] && lines[i4] == pre[i4];
      var j1 := if v.caption < ByteLen(last.caption) then n - 1 else i1;
      var j2 := if v.votes < ByteLen(last.votes) then n - 1 else i2;
      var j3 := if v.percent < ByteLen(last.percent) then n - 1 else i3;
      var j4 := if v.status < ByteLen(last.status) then n - 1 else i4;
      assert ByteLen(lines[j1].caption) == w.caption;
      assert ByteLen(lines[j2].votes) == w.votes;
      assert ByteLen(lines[j3].percent) == w.percent;
      assert ByteLen(lines[j4].status) == w.status;
    } else {
      assert ByteLen(lines[0].caption) == w.caption;
      assert ByteLen(lines[0].votes) == w.votes;
      assert ByteLen(lines[0].percent) == w.percent;
      assert ByteLen(lines[0].status) == w.status;
    }
  }

  /** Characters in a formatted row, newline included. */
  function RowWidth(w: Widths): nat
  {
    w.caption + w.votes + w.percent + w.status + 3 * |Gutter| + 1
  }

  /** A cell no wider in bytes than its column pads to exactly the width, since a
      string never has more characters than bytes. */
  lemma PadToWidth(s: string, w: nat)
    requires ByteLen(s) <= w
    ensures |PadEnd(s, w)| == w && |PadStart(s, w)| == w
  {
    ByteLenAtLeastChars(s);
  }

  /** `p` followed by anything starts with `p`, and what follows is the rest. */
  lemma ConcatParts(p: string, q: string)
    ensures (p + q)[..|p|] == p && (p + q)[|p|..] == q
  {
  }

  /** A piece of a prefix of `r` is the same piece of `r`. */
  lemma PrefixPiece(r: string, p: string, x: nat, y: nat)
    requires |p| <= |r| && r[..|p|] == p && x <= y <= |p|
    ensures r[x..y] == p[x..y] && r[..y] == p[..y]
  {
    assert forall k :: x <= k < y ==> r[k] == r[..|p|][k];
    assert forall k :: 0 <= k < y ==> r[k] == r[..|p|][k];
  }

  /** Four cells joined by gutters and ended by a newline: each cell sits at the
      offset the lengths before it add up to. */
  lemma JoinedCells(a: string, b: string, c: string, d: string, w: Widths)
    requires |a| == w.caption && |b| == w.votes && |c| == w.percent && |d| == w.status
    ensures var r := a + Gutter + b + Gutter + c + Gutter + d + "\n";
      var v0 := w.caption + |Gutter|;
      var p0 := v0 + w.votes + |Gutter|;
      var s0 := p0 + w.percent + |Gutter|;
      && |r| == RowWidth(w)
      && r[..w.caption] == a
      && r[v0..v0 + w.votes] == b
      && r[p0..p0 + w.percent] == c
      && r[s0..s0 + w.status] == d
      && r[|r| - 1] == '\n'
  {
    var r := a + Gutter + b + Gutter + c + Gutter + d + "\n";
    var a1 := a + Gutter;
    var a2 := a1 + b;
    var a3 := a2 + Gutter;
    var a4 := a3 + c;
    var a5 := a4 + Gutter;
    var a6 := a5 + d;
    ConcatParts(a6, "\n");
    ConcatParts(a5, d);
    ConcatParts(a3, c);
    ConcatParts(a1, b);
    ConcatParts(a, Gutter);
    PrefixPiece(r, a6, |a5|, |a6|);
    PrefixPiece(r, a6, 0, |a4|);
    PrefixPiece(r, a4, |a3|, |a4|);
    PrefixPiece(r, a4, 0, |a2|);
    PrefixPiece(r, a2, |a1|, |a2|);
    PrefixPiece(r, a2, 0, |a|);
  }

  /** A row whose cells fit the widths is `RowWidth(w)` characters long and puts
      each padded cell at the same offsets, the gutters between them, and the
      newline last. */
  lemma FormatRowLayout(l: Line, w: Widths)
    requires Fits(l, w)
    ensures var r := FormatRow(l, w);
      var v0 := w.caption + |Gutter|;
      var p0 := v0 + w.votes + |Gutter|;
      var s0 := p0 + w.percent + |Gutter|;
      && |r| == RowWidth(w)
      && r[..w.caption] == PadEnd(l.caption, w.caption)
      && r[v0..v0 + w.votes] == PadStart(l.votes, w.votes)
      && r[p0..p0 + w.percent] == PadStart(l.percent, w.percent)
      && r[s0..s0 + w.status] == PadStart(l.status, w.status)
      && r[|r| - 1] == '\n'
  {
    PadToWidth(l.caption, w.caption);
    PadToWidth(l.votes, w.votes);
    PadToWidth(l.percent, w.percent);
    PadToWidth(l.status, w.status);
    var a := PadEnd(l.caption, w.caption);
    var b := PadStart(l.votes, w.votes);
    var c := PadStart(l.percent, w.percent);
    var d := PadStart(l.status, w.status);
    JoinedCells(a, b, c, d, w);
  }

  lemma MulPred(n: nat, k: nat)
    requires n >= 1
    ensures n * k == (n - 1) * k + k
  {
  }

  /** With fitting widths every row has the same length, so the table is
      `RowWidth(w)` characters per line. */
  lemma {:induction false} RowsLength(lines: seq<Line>, w: Widths)
    requires forall i :: 0 <= i < |lines| ==> Fits(lines[i], w)
    ensures |Rows(lines, w)| == |lines| * RowWidth(w)
  {
    if lines != [] {
      var n := |lines|;
      var pre := lines[..n - 1];
      forall i | 0 <= i < n - 1
        ensures Fits(pre[i], w)
      {
        assert pre[i] == lines[i];
      }
      var rw := RowWidth(w);
      assert |Rows(pre, w)| == (n - 1) * rw by {
        RowsLength(pre, w);
      }
      assert |FormatRow(lines[n - 1], w)| == rw by {
        FormatRowLayout(lines[n - 1], w);
      }
      MulPred(n, rw);
    }
  }

  /** The pieces `g` gives the elements of `s`, one after the other. */
  function Flatten<A, B>(s: seq<A>, g: A -> seq<B>): seq<B>
  {
    if s == [] then [] else Flatten(s[..|s| - 1], g) + g(s[|s| - 1])
  }

  lemma {:induction false} FlattenAppend<A, B>(a: seq<A>, b: seq<A>, g: A -> seq<B>)
    ensures Flatten(a + b, g) == Flatten(a, g) + Flatten(b, g)
  {
    if b == [] {
      assert a + b == a;
      assert Flatten(a, g) + [] == Flatten(a, g);
    } else {
      var pre := b[..|b| - 1];
      var x, y, z := Flatten(a, g), Flatten(pre, g), g(b[|b| - 1]);
      assert Flatten(a + b, g) == x + y + z by {
        FlattenAppend(a, pre, g);
        assert (a + b)[..|a + b| - 1] == a + pre;
        assert (a + b)[|a + b| - 1] == b[|b| - 1];
      }
      AppendAssoc(x, y, z);
    }
  }

  function RowOf(w: Widths): Line -> string
  {
    (l: Line) => FormatRow(l, w)
  }

  lemma {:induction false} RowsAsFlatten(lines: seq<Line>, w: Widths)
    ensures Rows(lines, w) == Flatten(lines, RowOf(w))
  {
    if lines != [] {
      RowsAsFlatten(lines[..|lines| - 1], w);
    }
  }

  /** Formatting two runs of lines one after the other gives the two tables one
      after the other: each line is formatted on its own. */
  lemma RowsConcat(a: seq<Line>, b: seq<Line>, w: Widths)
    ensures Rows(a + b, w) == Rows(a, w) + Rows(b, w)
  {
    RowsAsFlatten(a + b, w);
    RowsAsFlatten(a, w);
    RowsAsFlatten(b, w);
    FlattenAppend(a, b, RowOf(w));
  }

  lemma RowsSingle(l: Line, w: Widths)
    ensures Rows([l], w) == FormatRow(l, w)
  {
    assert [l][..0] == [];
    assert Rows([], w) + FormatRow(l, w) == FormatRow(l, w);
  }

  lemma SplitAt<T>(s: seq<T>, i: nat)
    requires i < |s|
    ensures s == s[..i] + [s[i]] + s[i + 1..]
  {
  }

  /** Line `i` of a table formatted to its own column widths comes after `i`
      rows of `RowWidth` characters, is `RowWidth` characters itself, and is
      followed by the rows of the lines after it. */
  lemma TableLayout(lines: seq<Line>, i: nat)
    requires i < |lines|
    ensures var w := ColumnWidths(lines);
      && Rows(lines, w) == Rows(lines[..i], w) + FormatRow(lines[i], w) + Rows(lines[i + 1..], w)
      && |Rows(lines[..i], w)| == i * RowWidth(w)
      && |FormatRow(lines[i], w)| == RowWidth(w)
  {
    var w := ColumnWidths(lines);
    var before, line, after := lines[..i], lines[i], lines[i + 1..];
    var x, y, z := Rows(before, w), FormatRow(line, w), Rows(after, w);
    assert Rows(lines, w) == x + y + z by {
      SplitAt(lines, i);
      RowsConcat(before + [line], after, w);
      RowsConcat(before, [line], w);
      RowsSingle(line, w);
    }
    assert |y| == RowWidth(w) by {
      ColumnWidthsFit(lines);
      FormatRowLayout(line, w);
    }
    assert |x| == i * RowWidth(w) by {
      ColumnWidthsFit(lines);
      assert forall k :: 0 <= k < |before| ==> before[k] == lines[k];
      RowsLength(before, w);
    }
  }

  /** The report is the header followed by the table, formatted to the widths of
      its own widest cells, every row `RowWidth` characters long. */
  lemma ReportLayout(seatCount: nat, votes: seq<Vote>, results: map<string, seq<string>>, f: Formatters)
    ensures var lines := Lines(f, votes, results);
      var w := ColumnWidths(lines);
      var out := Render(seatCount, votes, results, f);
      && out[..|Header(seatCount)|] == Header(seatCount)
      && out[|Header(seatCount)|..] == Rows(lines, w)
      && |out| == |Header(seatCount)| + |lines| * RowWidth(w)
  {
    var lines := Lines(f, votes, results);
    var w := ColumnWidths(lines);
    ConcatParts(Header(seatCount), Rows(lines, w));
    ColumnWidthsFit(lines);
    RowsLength(lines, w);
  }

  /** One pass of the party loop: the party row, the candidate loop, the blank row. */
  method PushSection(f: Formatters, votes: seq<Vote>, results: map<string, seq<string>>, party: Entry, total: nat,
                     lines: seq<Line>)
    returns (lines': seq<Line>)
    ensures lines' == lines + Section(f, votes, results, party, total)
  {
    var listed := ListOf(results, party.0);
    var ranked := Ranked(votes, party.0);
    lines' := lines + [PartyLine(f, party, total, listed)];
    ghost var head := lines';
    for i := 0 to |ranked|
      invariant lines' == head + CandidateLines(f, ranked, i, total, listed)
    {
      AppendAssoc(head, CandidateLines(f, ranked, i, total, listed), [CandidateLine(f, ranked, i, total, listed)]);
      lines' := lines' + [CandidateLine(f, ranked, i, total, listed)];
    }
    ghost var candidates := CandidateLines(f, ranked, |ranked|, total, listed);
    AppendAssoc(head, candidates, [Blank]);
    AppendAssoc(lines, [PartyLine(f, party, total, listed)], candidates + [Blank]);
    AppendAssoc([PartyLine(f, party, total, listed)], candidates, [Blank]);
    lines' := lines' + [Blank];
  }

  /** The construction of `lines`: the total row, a blank row, then one block per
      party in sorted order. */
  method BuildLines(f: Formatters, votes: seq<Vote>, results: map<string, seq<string>>) returns (lines: seq<Line>)
    ensures lines == Lines(f, votes, results)
  {
    var sorted := SortedParties(votes);
    var total := TotalVotes(votes);
    lines := [TotalLine(f, total), Blank];
    for k := 0 to |sorted|
      invariant lines == [TotalLine(f, total), Blank] + Sections(f, votes, results, sorted[..k], total)
    {
      ghost var done := Sections(f, votes, results, sorted[..k], total);
      ghost var next := Section(f, votes, results, sorted[k], total);
      lines := PushSection(f, votes, results, sorted[k], total, lines);
      assert lines == [TotalLine(f, total), Blank] + Sections(f, votes, results, sorted[..k + 1], total) by {
        SectionsSnoc(f, votes, results, sorted, k, total);
        AppendAssoc([TotalLine(f, total), Blank], done, next);
      }
    }
    assert sorted[..|sorted|] == sorted;
  }

  /** The `max_widths` loop. */
  method MeasureColumns(lines: seq<Line>) returns (widths: Widths)
    ensures widths == ColumnWidths(lines)
  {
    widths := Widths(0, 0, 0, 0);
    for i := 0 to |lines|
      invariant widths == ColumnWidths(lines[..i])
    {
      var l := lines[i];
      widths := Widths(Max(widths.caption, ByteLen(l.caption)), Max(widths.votes, ByteLen(l.votes)),
                       Max(widths.percent, ByteLen(l.percent)), Max(widths.status, ByteLen(l.status)));
      assert lines[..i + 1][..i] == lines[..i];
    }
    assert lines[..|lines|] == lines;
  }

  /** `generate_report`: the header, then the line table measured and appended
      row by row. */
  method GenerateReport(seatCount: nat, votes: seq<Vote>, results: map<string, seq<string>>, f: Formatters)
    returns (output: string)
    ensures output == Render(seatCount, votes, results, f)
  {
    output := Header(seatCount);
    var lines := BuildLines(f, votes, results);
    var widths := MeasureColumns(lines);
    for i := 0 to |lines|
      invariant output == Header(seatCount) + Rows(lines[..i], widths)
    {
      output := output + FormatRow(lines[i], widths);
      RowsSnoc(lines, i, widths);
      AppendAssoc(Header(seatCount), Rows(lines[..i], widths), FormatRow(lines[i], widths));
    }
    assert lines[..|lines|] == lines;
  }
}
