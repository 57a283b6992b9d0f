/** Worked elections for `calculate`, computed from the specification functions. */
module DHondtScenarios {
  import opened DHondt

  /** Two parties: A with candidates A1 (200) and A2 (100), B with B1 (200);
      the totals are A 300 and B 200, and A is met first. */
  lemma ThreeSeatsTotals()
    ensures var votes := [Vote("A", "A1", 200), Vote("A", "A2", 100), Vote("B", "B1", 200)];
      VotesByParty(votes) == map["A" := 300, "B" := 200] && PartyOrder(votes) == ["A", "B"]
  {
    var votes := [Vote("A", "A1", 200), Vote("A", "A2", 100), Vote("B", "B1", 200)];
    var one := [Vote("A", "A1", 200)];
    assert votes[..2] == [Vote("A", "A1", 200), Vote("A", "A2", 100)];
    assert votes[..2][..1] == one;
    assert one[..0] == [];
    assert VotesByParty(one) == map["A" := 200];
    assert VotesByParty(votes[..2]) == map["A" := 300];
    assert PartyOrder(one) == ["A"];
    assert PartyOrder(votes[..2]) == ["A"];
  }

  /** With totals 300 and 200 (the election above, party `a` met first) the three
      seats go a, b, a: quotients 300 vs 200, then 150 vs 200, then 150 vs 100. */
  lemma ThreeSeats(a: string, b: string)
    requires a != b
    ensures Allocation([a, b], map[a := 300, b := 200], 3) == map[a := 2, b := 1]
  {
    var parties := [a, b];
    var totals := map[a := 300, b := 200];
    var s0 := Allocation(parties, totals, 0);
    assert s0 == map[];
    var s1 := Allocation(parties, totals, 1);
    assert s1 == map[a := 1] by {
      PairNext(a, b, totals, s0);
    }
    var s2 := Allocation(parties, totals, 2);
    assert s2 == map[a := 1, b := 1] by {
      PairNext(a, b, totals, s1);
    }
    assert Allocation(parties, totals, 3) == map[a := 2, b := 1] by {
      PairNext(a, b, totals, s2);
    }
  }

  /** The candidates of each party in that election, in entry order. */
  lemma ThreeSeatsCandidates()
    ensures var votes := [Vote("A", "A1", 200), Vote("A", "A2", 100), Vote("B", "B1", 200)];
      PartyCandidates(votes, "A") == [("A1", 200), ("A2", 100)]
      && PartyCandidates(votes, "B") == [("B1", 200)]
  {
    var votes := [Vote("A", "A1", 200), Vote("A", "A2", 100), Vote("B", "B1", 200)];
    var one := [Vote("A", "A1", 200)];
    assert votes[..2] == [Vote("A", "A1", 200), Vote("A", "A2", 100)];
    assert votes[..2][..1] == one;
    assert one[..0] == [];
    assert PartyCandidates(one, "A") == [("A1", 200)];
    assert PartyCandidates(votes[..2], "A") == [("A1", 200), ("A2", 100)];
    assert PartyCandidates(one, "B") == [];
    assert PartyCandidates(votes[..2], "B") == [];
  }

  /** The lists of that election: A, ranked A1 then A2, elects both for its two
      seats; B elects B1 for its one. */
  lemma ThreeSeatsLists()
    ensures Names(Take(RankByVotes([("A1", 200), ("A2", 100)]), 2)) == ["A1", "A2"]
    ensures Names(Take(RankByVotes([("B1", 200)]), 1)) == ["B1"]
  {
    var a := [("A1", 200), ("A2", 100)];
    assert a[1..] == [("A2", 100)];
    assert RankByVotes(a) == a;
    var na := Names(a);
    assert na[0] == "A1" && na[1] == "A2";
    var b := [("B1", 200)];
    assert Names(b)[0] == "B1";
  }

  /** The entries of the three-seat election above. */
  const ThreeSeatsVotes: seq<Vote> := [Vote("A", "A1", 200), Vote("A", "A2", 100), Vote("B", "B1", 200)]

  /** The seat loop on that election: A wins two seats and B one. */
  lemma ThreeSeatsAllocation()
    ensures Allocation(PartyOrder(ThreeSeatsVotes), VotesByParty(ThreeSeatsVotes), 3) == map["A" := 2, "B" := 1]
  {
    ThreeSeatsTotals();
    ThreeSeats("A", "B");
  }

  /** The lists of that election for those seats. */
  lemma ThreeSeatsElected()
    ensures Elected(ThreeSeatsVotes, "A", 2) == ["A1", "A2"]
    ensures Elected(ThreeSeatsVotes, "B", 1) == ["B1"]
  {
    ThreeSeatsCandidates();
    ThreeSeatsLists();
  }

  /** The lists of a seat map with two parties. */
  lemma SlateOfTwo(votes: seq<Vote>, seats: map<string, nat>, a: string, b: string, na: nat, nb: nat)
    requires a != b && seats == map[a := na, b := nb]
    ensures Slate(votes, seats) == map[a := Elected(votes, a, na), b := Elected(votes, b, nb)]
  {
    var slate := Slate(votes, seats);
    var la, lb := Elected(votes, a, na), Elected(votes, b, nb);
    assert slate.Keys == {a, b};
    assert slate[a] == la && slate[b] == lb;
    MapOfTwo(slate, a, b, la, lb);
  }

  /** A map with exactly two keys is the display of its two entries. */
  lemma MapOfTwo<K, V>(m: map<K, V>, a: K, b: K, va: V, vb: V)
    requires m.Keys == {a, b} && m[a] == va && m[b] == vb
    ensures m == map[a := va, b := vb]
  {
  }

  /** The whole election with three seats, as `Calculate` returns it: A elects A1
      and A2, B elects B1. */
  lemma ThreeSeatsElection()
    ensures Slate(ThreeSeatsVotes, Allocation(PartyOrder(ThreeSeatsVotes), VotesByParty(ThreeSeatsVotes), 3))
      == map["A" := ["A1", "A2"], "B" := ["B1"]]
  {
    var seats := Allocation(PartyOrder(ThreeSeatsVotes), VotesByParty(ThreeSeatsVotes), 3);
    ThreeSeatsAllocation();
    SlateOfTwo(ThreeSeatsVotes, seats, "A", "B", 2, 1);
    ThreeSeatsElected();
  }

  /** With two parties the next seat goes to the second unless the first has the
      strictly larger quotient. */
  lemma PairNext(a: string, b: string, totals: map<string, nat>, s: map<string, nat>)
    requires a in totals && b in totals
    ensures NextParty([a, b], totals, s) ==
      (if Quotient(totals, s, b) >= Quotient(totals, s, a) then b else a)
  {
    assert [a, b][..1] == [a];
  }

  /** The quotient is integer division, and ties go to the party iterated last:
      with `a` at 3 votes and `b` at 2, the third seat is the tie 3 / 2 == 2 / 2,
      which `b` wins although `a`'s exact quotient 1.5 exceeds `b`'s 1. */
  lemma FloorQuotientTie(a: string, b: string)
    requires a != b
    ensures Allocation([a, b], map[a := 3, b := 2], 3) == map[a := 1, b := 2]
  {
    var parties := [a, b];
    var totals := map[a := 3, b := 2];
    var s0 := Allocation(parties, totals, 0);
    assert s0 == map[];
    var s1 := Allocation(parties, totals, 1);
    assert s1 == map[a := 1] by {
      PairNext(a, b, totals, s0);
    }
    var s2 := Allocation(parties, totals, 2);
    assert s2 == map[a := 1, b := 1] by {
      PairNext(a, b, totals, s1);
    }
    assert Allocation(parties, totals, 3) == map[a := 1, b := 2] by {
      PairNext(a, b, totals, s2);
    }
  }

  /** A party without a single vote can win a seat: `a` has 1 vote, `b` none, and
      the second seat is the tie 1 / 2 == 0 / 1, which goes to `b`. */
  lemma ZeroVotePartyWins(a: string, b: string)
    requires a != b
    ensures Allocation([a, b], map[a := 1, b := 0], 2) == map[a := 1, b := 1]
  {
    var parties := [a, b];
    var totals := map[a := 1, b := 0];
    var s0 := Allocation(parties, totals, 0);
    assert s0 == map[];
    var s1 := Allocation(parties, totals, 1);
    assert s1 == map[a := 1] by {
      PairNext(a, b, totals, s0);
    }
    assert Allocation(parties, totals, 2) == map[a := 1, b := 1] by {
      PairNext(a, b, totals, s1);
    }
  }

  /** A party can hold more seats than it has candidates; its list is then all of
      its candidates. */
  lemma MoreSeatsThanCandidates()
    ensures Elected([Vote("A", "A1", 100), Vote("B", "B1", 1)], "A", 2) == ["A1"]
  {
    var votes := [Vote("A", "A1", 100), Vote("B", "B1", 1)];
    assert votes[..1] == [Vote("A", "A1", 100)];
    assert votes[..1][..0] == [];
    assert PartyCandidates(votes[..1], "A") == [("A1", 100)];
    var a := PartyCandidates(votes, "A");
    assert a == [("A1", 100)];
    assert RankByVotes(a) == a;
    assert Take(a, 2) == a;
    assert Names(a)[0] == "A1";
  }
}
