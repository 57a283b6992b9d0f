/** What the results report says: the grand total, the order and number of its
    rows, the seat column and the status markers, stated against the vote map and
    the seat allocation of module DHondt. */
module ReportContents {
  import opened DHondt
  import opened Fmt
  import opened Report

  // ---------------------------------------------------------------------------
  // Sums over entries

  /** The sum of `g` over the entries, front to back. */
  function SumBy(s: seq<Entry>, g: Entry -> nat): nat
  {
    if s == [] then 0 else g(s[0]) + SumBy(s[1..], g)
  }

  /** The votes of an entry. */
  function EntryVotes(e: Entry): nat
  {
    e.1
  }

  /** The number of candidate rows a party's block has. */
  function CandidateRows(votes: seq<Vote>): Entry -> nat
  {
    (e: Entry) => |PartyCandidates(votes, e.0)|
  }

  lemma {:induction false} SumBySnoc(s: seq<Entry>, g: Entry -> nat)
    requires s != []
    ensures SumBy(s, g) == SumBy(s[..|s| - 1], g) + g(s[|s| - 1])
  {
    var n := |s|;
    if n == 1 {
      assert s[..0] == [] && s[1..] == [];
    } else {
      SumBySnoc(s[1..], g);
      assert s[1..][..n - 2] == s[..n - 1][1..];
      assert s[1..][n - 2] == s[n - 1];
      assert s[..n - 1][0] == s[0];
    }
  }

  lemma {:induction false} SumByInsert(e: Entry, s: seq<Entry>, g: Entry -> nat)
    ensures SumBy(Insert(e, s), g) == g(e) + SumBy(s, g)
  {
    if s == [] || e.1 >= s[0].1 {
      var r := [e] + s;
      assert r[0] == e && r[1..] == s;
    } else {
      SumByInsert(e, s[1..], g);
      var r := [s[0]] + Insert(e, s[1..]);
      assert r[0] == s[0] && r[1..] == Insert(e, s[1..]);
    }
  }

  /** Sorting the entries does not change a sum over them. */
  lemma {:induction false} SumByRank(s: seq<Entry>, g: Entry -> nat)
    ensures SumBy(RankByVotes(s), g) == SumBy(s, g)
  {
    if s != [] {
      SumByRank(s[1..], g);
      SumByInsert(s[0], RankByVotes(s[1..]), g);
    }
  }

  lemma PairsSnoc(ps: seq<string>, m: map<string, nat>, g: Entry -> nat)
    requires ps != [] && Covers(ps, m)
    ensures Covers(ps[..|ps| - 1], m)
    ensures SumBy(Pairs(ps, m), g) == SumBy(Pairs(ps[..|ps| - 1], m), g) + g((ps[|ps| - 1], m[ps[|ps| - 1]]))
  {
    var n := |ps|;
    assert forall p :: p in ps[..n - 1] ==> p in ps;
    SumBySnoc(Pairs(ps, m), g);
    assert Pairs(ps, m)[..n - 1] == Pairs(ps[..n - 1], m);
  }

  /** Summing the votes of the (party, total) pairs is summing the totals. */
  lemma {:induction false} PairsVotes(ps: seq<string>, m: map<string, nat>)
    requires Covers(ps, m)
    ensures SumBy(Pairs(ps, m), EntryVotes) == SumOver(ps, m)
  {
    if ps != [] {
      PairsSnoc(ps, m, EntryVotes);
      PairsVotes(ps[..|ps| - 1], m);
    }
  }

  // ---------------------------------------------------------------------------
  // The grand total

  /** The folded total is the sum of the party totals. */
  lemma {:induction false} TotalIsSumOfParties(votes: seq<Vote>)
    ensures TotalVotes(votes) == SumOver(PartyOrder(votes), VotesByParty(votes))
  {
    if votes != [] {
      var pre := votes[..|votes| - 1];
      var v := votes[|votes| - 1];
      var ps := PartyOrder(pre);
      var acc := VotesByParty(pre);
      var m := VotesByParty(votes);
      assert m == acc[v.party := SeatsOf(acc, v.party) + v.votes];
      assert TotalVotes(votes) == SumOver(ps, acc) + v.votes by {
        TotalIsSumOfParties(pre);
      }
      if v.party in ps {
        SumOverAdd(ps, acc, v.party, v.votes);
      } else {
        var ps2 := ps + [v.party];
        assert SumOver(ps2, m) == SumOver(ps, m) + SeatsOf(m, v.party) by {
          assert ps2[..|ps2| - 1] == ps;
        }
        assert SumOver(ps, m) == SumOver(ps, acc) by {
          SumOverOther(ps, acc, v.party, SeatsOf(acc, v.party) + v.votes);
        }
        assert SeatsOf(acc, v.party) == 0 by {
          PartyOrderKeys(pre);
        }
      }
    }
  }

  /** The "Total of votes" row equals the sum of the party rows' totals, and the
      sum of the party totals. */
  lemma GrandTotal(votes: seq<Vote>)
    ensures TotalVotes(votes) == SumOver(PartyOrder(votes), VotesByParty(votes))
    ensures TotalVotes(votes) == SumBy(SortedParties(votes), EntryVotes)
  {
    TotalIsSumOfParties(votes);
    PairsVotes(PartyOrder(votes), VotesByParty(votes));
    SumByRank(PartyTotals(votes), EntryVotes);
  }

  // ---------------------------------------------------------------------------
  // The party blocks

  /** A rearrangement of the (party, value) pairs of distinct parties lists each
      party once, with its value. */
  lemma PermutedPairs(ps: seq<string>, m: map<string, nat>, sp: seq<Entry>)
    requires Covers(ps, m) && Distinct(ps)
    requires multiset(sp) == multiset(Pairs(ps, m))
    ensures Distinct(Names(sp))
    ensures forall p :: p in ps <==> p in Names(sp)
    ensures forall i :: 0 <= i < |sp| ==> sp[i].0 in m && sp[i].1 == m[sp[i].0]
  {
    var pt := Pairs(ps, m);
    assert Names(pt) == ps;
    PermutationKeepsNamesDistinct(pt, sp);
    forall i | 0 <= i < |sp|
      ensures sp[i].0 in ps && sp[i].1 == m[sp[i].0]
    {
      assert sp[i] in multiset(pt);
      var k :| 0 <= k < |pt| && pt[k] == sp[i];
    }
    forall p | p in ps
      ensures p in Names(sp)
    {
      var k :| 0 <= k < |ps| && ps[k] == p;
      assert pt[k] in multiset(sp);
      var i :| 0 <= i < |sp| && sp[i] == pt[k];
      assert Names(sp)[i] == p;
    }
    forall p | p in Names(sp)
      ensures p in ps
    {
      var i :| 0 <= i < |sp| && Names(sp)[i] == p;
    }
  }

  /** Each party appears once among the sorted party totals, with its total (the
      sum of its candidates' votes); the totals do not increase down the list; and
      parties with equal totals keep the map's iteration order. */
  lemma SortedPartiesSpec(votes: seq<Vote>)
    ensures var sp := SortedParties(votes);
      var m := VotesByParty(votes);
      && NonIncreasing(sp)
      && Distinct(Names(sp))
      && (forall p :: p in m <==> p in Names(sp))
      && (forall i :: 0 <= i < |sp| ==>
            sp[i].0 in m && sp[i].1 == m[sp[i].0] && sp[i].1 == SumVotes(PartyCandidates(votes, sp[i].0)))
      && forall v :: WithVotes(sp, v) == WithVotes(PartyTotals(votes), v)
  {
    var pt := PartyTotals(votes);
    var sp := SortedParties(votes);
    var m := VotesByParty(votes);
    RankSorted(pt);
    PartyOrderKeys(votes);
    PermutedPairs(PartyOrder(votes), m, sp);
    forall i | 0 <= i < |sp|
      ensures sp[i].1 == SumVotes(PartyCandidates(votes, sp[i].0))
    {
      PartyTotalIsCandidateSum(votes, sp[i].0);
    }
    forall v
      ensures WithVotes(sp, v) == WithVotes(pt, v)
    {
      RankStable(pt, v);
    }
  }

  /** A party's block: its row, then its candidates' rows in ranked order (sorted
      by non-increasing votes, a rearrangement of its candidates), then a blank row. */
  lemma SectionShape(f: Formatters, votes: seq<Vote>, results: map<string, seq<string>>, party: Entry, total: nat)
    ensures var s := Section(f, votes, results, party, total);
      var ranked := Ranked(votes, party.0);
      var listed := ListOf(results, party.0);
      && |s| == |ranked| + 2
      && s[0] == PartyLine(f, party, total, listed)
      && s[|s| - 1] == Blank
      && NonIncreasing(ranked)
      && multiset(ranked) == multiset(PartyCandidates(votes, party.0))
      && forall i :: 0 <= i < |ranked| ==> s[i + 1] == CandidateLine(f, ranked, i, total, listed)
  {
    RankSorted(PartyCandidates(votes, party.0));
  }

  function SectionOf(f: Formatters, votes: seq<Vote>, results: map<string, seq<string>>, total: nat): Entry -> seq<Line>
  {
    (party: Entry) => Section(f, votes, results, party, total)
  }

  lemma {:induction false} SectionsAsFlatten(f: Formatters, votes: seq<Vote>, results: map<string, seq<string>>,
                                            parties: seq<Entry>, total: nat)
    ensures Sections(f, votes, results, parties, total) == Flatten(parties, SectionOf(f, votes, results, total))
  {
    if parties != [] {
      SectionsAsFlatten(f, votes, results, parties[..|parties| - 1], total);
    }
  }

  lemma SectionsConcat(f: Formatters, votes: seq<Vote>, results: map<string, seq<string>>,
                       a: seq<Entry>, b: seq<Entry>, total: nat)
    ensures Sections(f, votes, results, a + b, total)
      == Sections(f, votes, results, a, total) + Sections(f, votes, results, b, total)
  {
    SectionsAsFlatten(f, votes, results, a + b, total);
    SectionsAsFlatten(f, votes, results, a, total);
    SectionsAsFlatten(f, votes, results, b, total);
    FlattenAppend(a, b, SectionOf(f, votes, results, total));
  }

  lemma SectionsSingle(f: Formatters, votes: seq<Vote>, results: map<string, seq<string>>, party: Entry, total: nat)
    ensures Sections(f, votes, results, [party], total) == Section(f, votes, results, party, total)
  {
    var single: seq<Entry> := [party];
    assert single[..0] == [];
    var none: seq<Line> := [];
    assert none + Section(f, votes, results, party, total) == Section(f, votes, results, party, total);
  }

  /** The table is the total row, a blank row, and the party blocks in the order of
      the sorted party totals: the block of the `k`-th party follows those of the
      parties before it. */
  lemma PartyBlockAt(f: Formatters, votes: seq<Vote>, results: map<string, seq<string>>, k: nat)
    requires k < |SortedParties(votes)|
    ensures var sp := SortedParties(votes);
      var total := TotalVotes(votes);
      Lines(f, votes, results)
        == [TotalLine(f, total), Blank] + Sections(f, votes, results, sp[..k], total)
           + Section(f, votes, results, sp[k], total) + Sections(f, votes, results, sp[k + 1..], total)
  {
    var sp := SortedParties(votes);
    var total := TotalVotes(votes);
    var before, party, after := sp[..k], sp[k], sp[k + 1..];
    var x, y, z := Sections(f, votes, results, before, total), Section(f, votes, results, party, total),
      Sections(f, votes, results, after, total);
    assert Sections(f, votes, results, sp, total) == x + y + z by {
      SplitAt(sp, k);
      SectionsConcat(f, votes, results, before + [party], after, total);
      SectionsConcat(f, votes, results, before, [party], total);
      SectionsSingle(f, votes, results, party, total);
    }
    var h := [TotalLine(f, total), Blank];
    AppendAssoc(h, x + y, z);
    AppendAssoc(h, x, y);
  }

  // ---------------------------------------------------------------------------
  // The number of rows

  /** The number of entries of the listed parties. */
  function CandidatesOf(votes: seq<Vote>, ps: seq<string>): nat
  {
    if ps == [] then 0 else CandidatesOf(votes, ps[..|ps| - 1]) + |PartyCandidates(votes, ps[|ps| - 1])|
  }

  /** The last entry adds one candidate to its own party and none to the others. */
  lemma {:induction false} CandidatesOfStep(votes: seq<Vote>, ps: seq<string>)
    requires votes != [] && Distinct(ps)
    ensures CandidatesOf(votes, ps)
      == CandidatesOf(votes[..|votes| - 1], ps) + (if votes[|votes| - 1].party in ps then 1 else 0)
  {
    if ps != [] {
      var pre := ps[..|ps| - 1];
      var p := ps[|ps| - 1];
      assert ps == pre + [p];
      assert forall i :: 0 <= i < |pre| ==> pre[i] == ps[i];
      CandidatesOfStep(votes, pre);
      forall i | 0 <= i < |pre|
        ensures pre[i] != p
      {
      }
    }
  }

  /** Every entry of the vote map is a candidate of exactly one party. */
  lemma {:induction false} CandidatesOfAll(votes: seq<Vote>)
    ensures CandidatesOf(votes, PartyOrder(votes)) == |votes|
  {
    if votes != [] {
      var pre := votes[..|votes| - 1];
      var v := votes[|votes| - 1];
      var ps := PartyOrder(pre);
      CandidatesOfAll(pre);
      CandidatesOfStep(votes, PartyOrder(votes));
      if v.party !in ps {
        var ps2 := ps + [v.party];
        assert ps2[..|ps2| - 1] == ps;
        PartyOrderKeys(pre);
        PartyTotalIsCandidateSum(pre, v.party);
      }
    }
  }

  lemma {:induction false} PairsCandidates(votes: seq<Vote>, ps: seq<string>, m: map<string, nat>)
    requires Covers(ps, m)
    ensures SumBy(Pairs(ps, m), CandidateRows(votes)) == CandidatesOf(votes, ps)
  {
    if ps != [] {
      PairsSnoc(ps, m, CandidateRows(votes));
      PairsCandidates(votes, ps[..|ps| - 1], m);
    }
  }

  lemma {:induction false} SectionsLength(f: Formatters, votes: seq<Vote>, results: map<string, seq<string>>,
                                          parties: seq<Entry>, total: nat)
    ensures |Sections(f, votes, results, parties, total)| == 2 * |parties| + SumBy(parties, CandidateRows(votes))
  {
    if parties != [] {
      var n := |parties|;
      SectionsLength(f, votes, results, parties[..n - 1], total);
      SumBySnoc(parties, CandidateRows(votes));
      SectionShape(f, votes, results, parties[n - 1], total);
    }
  }

  /** The table has two rows before the parties, and per party a row, a row for
      each of its candidates and a blank row. */
  lemma LineCount(f: Formatters, votes: seq<Vote>, results: map<string, seq<string>>)
    ensures |Lines(f, votes, results)| == 2 + 2 * |PartyOrder(votes)| + |votes|
  {
    var ps := PartyOrder(votes);
    var m := VotesByParty(votes);
    SectionsLength(f, votes, results, SortedParties(votes), TotalVotes(votes));
    SumByRank(PartyTotals(votes), CandidateRows(votes));
    PairsCandidates(votes, ps, m);
    CandidatesOfAll(votes);
  }

  // ---------------------------------------------------------------------------
  // The seat column and the status markers

  /** The list shown for a party is its elected candidates for the seats it
      holds; a party without seats shows an empty list. */
  lemma SlateListOf(votes: seq<Vote>, seats: map<string, nat>, party: string)
    ensures ListOf(Slate(votes, seats), party) == Elected(votes, party, SeatsOf(seats, party))
  {
    if party !in seats {
      assert Take(Ranked(votes, party), 0) == [];
    }
  }

  /** The seat column of a party's row shows the length of its list: the smaller of
      the seats it holds and its number of candidates, so a party with more seats
      than candidates shows fewer seats than it won. */
  lemma SeatColumn(f: Formatters, votes: seq<Vote>, seats: map<string, nat>, party: Entry, total: nat)
    ensures var n := SeatsOf(seats, party.0);
      var c := |PartyCandidates(votes, party.0)|;
      PartyLine(f, party, total, ListOf(Slate(votes, seats), party.0)).status
        == NatToString(if n < c then n else c)
  {
    SlateListOf(votes, seats, party.0);
  }

  /** The marker is the tick exactly for a listed candidate; "?" exactly for an
      unlisted candidate with the votes of an earlier listed one; blank otherwise. */
  lemma MarkerCases(ranked: seq<Entry>, i: nat, listed: seq<string>)
    requires i < |ranked|
    ensures Marker(ranked, i, listed) == Tick <==> ranked[i].0 in listed
    ensures Marker(ranked, i, listed) == "?" <==>
      ranked[i].0 !in listed && exists j :: 0 <= j < i && ranked[j].1 == ranked[i].1 && ranked[j].0 in listed
    ensures Marker(ranked, i, listed) == " " <==>
      ranked[i].0 !in listed && forall j :: 0 <= j < i && ranked[j].0 in listed ==> ranked[j].1 != ranked[i].1
  {
    assert Tick[0] != '?' && Tick[0] != ' ';
  }

  /** With distinct names, the name of entry `k` is among the first `m` names
      exactly when `k < m`. */
  lemma FirstNames(cs: seq<Entry>, m: nat)
    requires Distinct(Names(cs)) && m <= |cs|
    ensures forall k :: 0 <= k < |cs| ==> (cs[k].0 in Names(cs)[..m] <==> k < m)
  {
    var ns := Names(cs);
    forall k | 0 <= k < |cs|
      ensures cs[k].0 in ns[..m] <==> k < m
    {
      if k < m {
        assert ns[..m][k] == cs[k].0;
      }
      if cs[k].0 in ns[..m] {
        var j :| 0 <= j < m && ns[..m][j] == cs[k].0;
        assert ns[j] == ns[k];
      }
    }
  }

  /** Under unique keys a ranked candidate is on the list for `n` seats exactly
      when it is among the first `n`. */
  lemma ElectedPrefix(votes: seq<Vote>, party: string, n: nat)
    requires UniqueKeys(votes)
    ensures var ranked := Ranked(votes, party);
      forall k :: 0 <= k < |ranked| ==> (ranked[k].0 in Elected(votes, party, n) <==> k < n)
  {
    var ranked := Ranked(votes, party);
    var listed := Elected(votes, party, n);
    var m := if n < |ranked| then n else |ranked|;
    assert Take(ranked, n) == ranked[..m];
    assert listed == Names(ranked)[..m];
    RankedCandidates(votes, party);
    FirstNames(ranked, m);
  }

  /** For a party holding `n` seats, the first `n` ranked candidates are ticked,
      and an unlisted candidate is marked "?" exactly when it has the votes of the
      last listed one: the tie the seat cut-off went through. */
  lemma MarkerAtCutoff(votes: seq<Vote>, party: string, n: nat, i: nat)
    requires UniqueKeys(votes)
    requires i < |Ranked(votes, party)|
    ensures var ranked := Ranked(votes, party);
      Marker(ranked, i, Elected(votes, party, n))
        == if i < n then Tick
           else if n > 0 && ranked[i].1 == ranked[n - 1].1 then "?"
           else " "
  {
    var ranked := Ranked(votes, party);
    var listed := Elected(votes, party, n);
    ElectedPrefix(votes, party, n);
    RankSorted(PartyCandidates(votes, party));
    if i >= n && n > 0 && ranked[i].1 == ranked[n - 1].1 {
      assert ranked[n - 1].0 in listed;
    }
    MarkerCases(ranked, i, listed);
  }

  /** In the report of a seat allocation, the `i`-th candidate row of a party's
      block names its `i`-th ranked candidate and carries the marker its seats
      decide. */
  lemma CandidateStatus(f: Formatters, votes: seq<Vote>, seats: map<string, nat>, party: Entry, total: nat, i: nat)
    requires UniqueKeys(votes)
    requires i < |Ranked(votes, party.0)|
    ensures var ranked := Ranked(votes, party.0);
      var n := SeatsOf(seats, party.0);
      var s := Section(f, votes, Slate(votes, seats), party, total);
      && s[i + 1].caption == "  - " + ranked[i].0
      && s[i + 1].status == (if i < n then Tick else if n > 0 && ranked[i].1 == ranked[n - 1].1 then "?" else " ")
  {
    var ranked := Ranked(votes, party.0);
    var n := SeatsOf(seats, party.0);
    var listed := ListOf(Slate(votes, seats), party.0);
    var s := Section(f, votes, Slate(votes, seats), party, total);
    assert s[i + 1] == CandidateLine(f, ranked, i, total, listed) by {
      SectionShape(f, votes, Slate(votes, seats), party, total);
    }
    assert listed == Elected(votes, party.0, n) by {
      SlateListOf(votes, seats, party.0);
    }
    MarkerAtCutoff(votes, party.0, n, i);
  }
}
