/** D'Hondt apportionment and candidate selection (`calculate` in src/dhondt.rs).

    The vote map `HashMap<(party, candidate), u32>` is given as the sequence of its
    entries in iteration order; its keys are unique. Wherever the source iterates a
    map of parties, the model iterates the parties in the order in which they first
    appear among the entries (`PartyOrder`). Vote counts are unbounded. */
module DHondt {

  /** The three ways `calculate` refuses its input. */
  datatype DHondtError = ZeroSeats | NoVotes | NoParties

  datatype Result<T> = Ok(value: T) | Err(error: DHondtError)

  /** One entry of the vote map: the key (party, candidate) and its vote count. */
  datatype Vote = Vote(party: string, candidate: string, votes: nat)

  /** A name with a vote count, the source's `(String, u32)`. */
  type Entry = (string, nat)

  /** No two entries share the key (party, candidate). */
  predicate UniqueKeys(votes: seq<Vote>)
  {
    forall i, j :: 0 <= i < j < |votes| ==>
      votes[i].party != votes[j].party || votes[i].candidate != votes[j].candidate
  }

  predicate Distinct<T(==)>(s: seq<T>)
  {
    forall i, j :: 0 <= i < j < |s| ==> s[i] != s[j]
  }

  function Keys(votes: seq<Vote>): set<(string, string)>
  {
    set v | v in votes :: (v.party, v.candidate)
  }

  // ---------------------------------------------------------------------------
  // Aggregation

  /** The fold that sums votes per party, entry by entry. */
  function VotesByParty(votes: seq<Vote>): map<string, nat>
  {
    if votes == [] then map[]
    else
      var acc := VotesByParty(votes[..|votes| - 1]);
      var v := votes[|votes| - 1];
      acc[v.party := (if v.party in acc then acc[v.party] else 0) + v.votes]
  }

  /** The candidates of `party` with their votes, in iteration order
      (the source's `filter` on the party followed by `map`). */
  function PartyCandidates(votes: seq<Vote>, party: string): seq<Entry>
  {
    if votes == [] then []
    else
      var v := votes[|votes| - 1];
      PartyCandidates(votes[..|votes| - 1], party)
        + (if v.party == party then [(v.candidate, v.votes)] else [])
  }

  function SumVotes(cs: seq<Entry>): nat
  {
    if cs == [] then 0 else SumVotes(cs[..|cs| - 1]) + cs[|cs| - 1].1
  }

  function Names(cs: seq<Entry>): (ns: seq<string>)
    ensures |ns| == |cs| && forall i :: 0 <= i < |cs| ==> ns[i] == cs[i].0
  {
    seq(|cs|, i requires 0 <= i < |cs| => cs[i].0)
  }

  /** An entry is listed for `party` exactly when the vote map holds it under that party. */
  lemma {:induction false} PartyCandidatesMembers(votes: seq<Vote>, party: string)
    ensures forall c :: c in PartyCandidates(votes, party) <==> Vote(party, c.0, c.1) in votes
  {
    if votes != [] {
      var pre := votes[..|votes| - 1];
      PartyCandidatesMembers(pre, party);
      assert votes == pre + [votes[|votes| - 1]];
    }
  }

  /** Under unique keys, a party's candidates have distinct names. */
  lemma {:induction false} PartyCandidatesDistinct(votes: seq<Vote>, party: string)
    requires UniqueKeys(votes)
    ensures Distinct(Names(PartyCandidates(votes, party)))
  {
    if votes != [] {
      var pre := votes[..|votes| - 1];
      var v := votes[|votes| - 1];
      PartyCandidatesDistinct(pre, party);
      PartyCandidatesMembers(pre, party);
      var cs := PartyCandidates(votes, party);
      var ps := PartyCandidates(pre, party);
      if v.party == party {
        forall i | 0 <= i < |ps|
          ensures ps[i].0 != v.candidate
        {
          assert ps[i] in ps;
          var k :| 0 <= k < |pre| && pre[k] == Vote(party, ps[i].0, ps[i].1);
          assert votes[k] == pre[k];
        }
        assert cs == ps + [(v.candidate, v.votes)];
      } else {
        assert cs == ps;
      }
    }
  }

  /** Each party total equals the sum of its candidates' votes; a party absent from
      the totals has no candidates. */
  lemma {:induction false} PartyTotalIsCandidateSum(votes: seq<Vote>, party: string)
    ensures party in VotesByParty(votes) ==>
      VotesByParty(votes)[party] == SumVotes(PartyCandidates(votes, party))
    ensures party !in VotesByParty(votes) ==> PartyCandidates(votes, party) == []
  {
    if votes != [] {
      var pre := votes[..|votes| - 1];
      var v := votes[|votes| - 1];
      PartyTotalIsCandidateSum(pre, party);
      var acc := VotesByParty(pre);
      var ps := PartyCandidates(pre, party);
      assert VotesByParty(votes) == acc[v.party := (if v.party in acc then acc[v.party] else 0) + v.votes];
      if v.party == party {
        var cs := ps + [(v.candidate, v.votes)];
        assert PartyCandidates(votes, party) == cs;
        assert cs[..|cs| - 1] == ps;
        assert SumVotes(cs) == SumVotes(ps) + v.votes;
      } else {
        assert PartyCandidates(votes, party) == ps;
      }
    }
  }

  /** The parties in the order in which they first appear among the entries:
      the iteration order the model gives to the source's maps keyed by party. */
  function PartyOrder(votes: seq<Vote>): (ps: seq<string>)
    ensures Distinct(ps)
    ensures Covers(ps, VotesByParty(votes))
    ensures votes != [] ==> ps != []
  {
    if votes == [] then []
    else
      var pre := PartyOrder(votes[..|votes| - 1]);
      var v := votes[|votes| - 1];
      if v.party in pre then pre else pre + [v.party]
  }

  /** The ordered parties are exactly the parties that have a total, and the party
      of every entry is among them. */
  lemma {:induction false} PartyOrderKeys(votes: seq<Vote>)
    ensures forall p :: p in PartyOrder(votes) <==> p in VotesByParty(votes)
    ensures forall v :: v in votes ==> v.party in PartyOrder(votes)
  {
    if votes != [] {
      var pre := votes[..|votes| - 1];
      PartyOrderKeys(pre);
      assert votes == pre + [votes[|votes| - 1]];
    }
  }

  // ---------------------------------------------------------------------------
  // Seat allocation

  /** The seats a party holds; a party missing from the seat map holds none
      (`seats.get(p).unwrap_or(&0)`). */
  function SeatsOf(seats: map<string, nat>, party: string): nat
  {
    if party in seats then seats[party] else 0
  }

  /** Every listed party has a total. */
  predicate Covers(parties: seq<string>, totals: map<string, nat>)
  {
    forall p :: p in parties ==> p in totals
  }

  /** The D'Hondt quotient `votes / (seats + 1)`, floor division. */
  function Quotient(totals: map<string, nat>, seats: map<string, nat>, party: string): nat
    requires party in totals
  {
    totals[party] / (SeatsOf(seats, party) + 1)
  }

  /** `max_by_key` over the parties with the quotient as key: the index of the
      LAST party whose quotient is maximal (see `BestIndexIsLastMax`). */
  function BestIndex(parties: seq<string>, totals: map<string, nat>, seats: map<string, nat>): (k: nat)
    requires parties != [] && Covers(parties, totals)
    ensures k < |parties|
  {
    var n := |parties|;
    if n == 1 then 0
    else
      var k := BestIndex(parties[..n - 1], totals, seats);
      if Quotient(totals, seats, parties[n - 1]) >= Quotient(totals, seats, parties[k]) then n - 1 else k
  }

  /** The iterator's maximum is the last of the equal maxima: no party has a larger
      quotient, and every later party has a strictly smaller one. */
  lemma {:induction false} BestIndexIsLastMax(parties: seq<string>, totals: map<string, nat>, seats: map<string, nat>)
    requires parties != [] && Covers(parties, totals)
    ensures var k := BestIndex(parties, totals, seats);
      (forall i :: 0 <= i < |parties| ==>
        Quotient(totals, seats, parties[i]) <= Quotient(totals, seats, parties[k]))
      && (forall i :: k < i < |parties| ==>
        Quotient(totals, seats, parties[i]) < Quotient(totals, seats, parties[k]))
  {
    var n := |parties|;
    if n > 1 {
      var pre := parties[..n - 1];
      BestIndexIsLastMax(pre, totals, seats);
      var k := BestIndex(pre, totals, seats);
      assert pre[k] == parties[k];
      assert forall i :: 0 <= i < n - 1 ==> pre[i] == parties[i];
    }
  }

  /** The party that wins the next seat given the seats held so far. */
  function NextParty(parties: seq<string>, totals: map<string, nat>, seats: map<string, nat>): (b: string)
    requires parties != [] && Covers(parties, totals)
    ensures b in parties
  {
    parties[BestIndex(parties, totals, seats)]
  }

  /** No listed party has a larger quotient than the party that wins the next seat. */
  lemma NextPartyBest(parties: seq<string>, totals: map<string, nat>, seats: map<string, nat>, q: string)
    requires parties != [] && Covers(parties, totals) && q in parties
    ensures Quotient(totals, seats, q) <= Quotient(totals, seats, NextParty(parties, totals, seats))
  {
    BestIndexIsLastMax(parties, totals, seats);
    var j :| 0 <= j < |parties| && parties[j] == q;
  }

  /** The seat map after `k` seats have been handed out one at a time, each to the
      party `NextParty` picks for the seats so far. */
  function Allocation(parties: seq<string>, totals: map<string, nat>, k: nat): map<string, nat>
    requires parties != [] && Covers(parties, totals)
  {
    if k == 0 then map[]
    else
      var s := Allocation(parties, totals, k - 1);
      var b := NextParty(parties, totals, s);
      s[b := SeatsOf(s, b) + 1]
  }

  /** Only listed parties hold seats, and a party in the seat map holds at least one. */
  lemma {:induction false} AllocationKeys(parties: seq<string>, totals: map<string, nat>, k: nat)
    requires parties != [] && Covers(parties, totals)
    ensures forall p :: p in Allocation(parties, totals, k) ==>
      p in parties && Allocation(parties, totals, k)[p] >= 1
  {
    if k > 0 {
      AllocationKeys(parties, totals, k - 1);
    }
  }

  /** The values of a party-indexed map summed over the listed parties, a missing
      party counting 0: the seats handed out, or the votes cast when the map holds
      the party totals. The source sums the seat map's own entries
      (`seats.iter().map(|p| p.1).sum()`); the model sums over the party list, which
      lists each party once and holds every party of the seat map
      (`PartyOrder`, `AllocationKeys`). */
  function SumOver(parties: seq<string>, m: map<string, nat>): nat
  {
    if parties == [] then 0
    else SumOver(parties[..|parties| - 1], m) + SeatsOf(m, parties[|parties| - 1])
  }

  lemma {:induction false} SumOverOther(parties: seq<string>, seats: map<string, nat>, b: string, x: nat)
    requires b !in parties
    ensures SumOver(parties, seats[b := x]) == SumOver(parties, seats)
  {
    if parties != [] {
      SumOverOther(parties[..|parties| - 1], seats, b, x);
    }
  }

  lemma {:induction false} SumOverNone(parties: seq<string>)
    ensures SumOver(parties, map[]) == 0
  {
    if parties != [] {
      SumOverNone(parties[..|parties| - 1]);
    }
  }

  /** Adding `x` to a listed party's value raises the sum by `x`. */
  lemma {:induction false} SumOverAdd(parties: seq<string>, m: map<string, nat>, b: string, x: nat)
    requires Distinct(parties) && b in parties
    ensures SumOver(parties, m[b := SeatsOf(m, b) + x]) == SumOver(parties, m) + x
  {
    var n := |parties|;
    var pre := parties[..n - 1];
    assert parties == pre + [parties[n - 1]];
    if parties[n - 1] == b {
      assert b !in pre;
      SumOverOther(pre, m, b, SeatsOf(m, b) + x);
    } else {
      SumOverAdd(pre, m, b, x);
    }
  }

  /** After `k` steps exactly `k` seats are assigned. */
  lemma {:induction false} AllocationSum(parties: seq<string>, totals: map<string, nat>, k: nat)
    requires parties != [] && Covers(parties, totals) && Distinct(parties)
    ensures SumOver(parties, Allocation(parties, totals, k)) == k
  {
    if k == 0 {
      SumOverNone(parties);
    } else {
      AllocationSum(parties, totals, k - 1);
      var s := Allocation(parties, totals, k - 1);
      SumOverAdd(parties, s, NextParty(parties, totals, s), 1);
    }
  }

  lemma AllocationOne(parties: seq<string>, totals: map<string, nat>)
    requires parties != [] && Covers(parties, totals)
    ensures Allocation(parties, totals, 1) == map[NextParty(parties, totals, map[]) := 1]
  {
    assert Allocation(parties, totals, 0) == map[];
  }

  /** The first seat goes to a party with the largest total: the quotient rule with no seats. */
  lemma FirstSeat(parties: seq<string>, totals: map<string, nat>)
    requires parties != [] && Covers(parties, totals)
    ensures exists b ::
      b in parties && Allocation(parties, totals, 1) == map[b := 1] &&
      (forall p :: p in parties ==> totals[p] <= totals[b])
  {
    var s: map<string, nat> := map[];
    var b := NextParty(parties, totals, s);
    assert Allocation(parties, totals, 1) == map[b := 1];
    forall p | p in parties
      ensures totals[p] <= totals[b]
    {
      NextPartyBest(parties, totals, s, p);
    }
  }

  /** Each step gives exactly one more seat, to a party whose quotient is maximal;
      no other party's seat count changes. */
  lemma AllocationStep(parties: seq<string>, totals: map<string, nat>, k: nat)
    requires parties != [] && Covers(parties, totals)
    ensures var s, s' := Allocation(parties, totals, k), Allocation(parties, totals, k + 1);
      exists b :: b in parties
        && (forall p :: p in parties ==> Quotient(totals, s, p) <= Quotient(totals, s, b))
        && SeatsOf(s', b) == SeatsOf(s, b) + 1
        && forall p :: p != b ==> SeatsOf(s', p) == SeatsOf(s, p)
  {
    var s := Allocation(parties, totals, k);
    var b := NextParty(parties, totals, s);
    forall p | p in parties
      ensures Quotient(totals, s, p) <= Quotient(totals, s, b)
    {
      NextPartyBest(parties, totals, s, p);
    }
  }

  /** One more step never takes a seat away. */
  lemma AllocationGrows(parties: seq<string>, totals: map<string, nat>, k: nat)
    requires parties != [] && Covers(parties, totals)
    ensures forall p :: SeatsOf(Allocation(parties, totals, k), p) <= SeatsOf(Allocation(parties, totals, k + 1), p)
  {
    var s := Allocation(parties, totals, k);
    var b := NextParty(parties, totals, s);
    var s' := s[b := SeatsOf(s, b) + 1];
    forall p
      ensures SeatsOf(s, p) <= SeatsOf(s', p)
    {
      if p != b {
        assert SeatsOf(s', p) == SeatsOf(s, p);
      }
    }
  }

  /** Seat counts never decrease as more seats are handed out. */
  lemma {:induction false} AllocationMonotone(parties: seq<string>, totals: map<string, nat>, k: nat, k': nat)
    requires parties != [] && Covers(parties, totals) && k <= k'
    ensures forall p :: SeatsOf(Allocation(parties, totals, k), p) <= SeatsOf(Allocation(parties, totals, k'), p)
    decreases k' - k
  {
    if k < k' {
      AllocationGrows(parties, totals, k);
      AllocationMonotone(parties, totals, k + 1, k');
    }
  }

  lemma {:induction false} MulMonotone(x: nat, y: nat, z: nat)
    requires y <= z
    ensures x * y <= x * z
  {
    if x > 0 {
      MulMonotone(x - 1, y, z);
      assert x * y == (x - 1) * y + y;
      assert x * z == (x - 1) * z + z;
    }
  }

  /** `a / d` is the largest `q` with `q * d <= a`. */
  lemma DivIsLargest(a: nat, d: nat, q: nat)
    requires 0 < d && q * d <= a
    ensures q <= a / d
  {
    var m := a / d;
    assert a == m * d + a % d && a % d < d;
    if q > m {
      MulMonotone(d, m + 1, q);
      assert false;
    }
  }

  /** Floor division does not grow with the divisor. */
  lemma DivAntitone(a: nat, d: nat, d': nat)
    requires 0 < d <= d'
    ensures a / d' <= a / d
  {
    var q := a / d';
    assert a == q * d' + a % d';
    MulMonotone(q, d, d');
    DivIsLargest(a, d, q);
  }

  /** The D'Hondt cut-off property of a seat map: no party's next quotient exceeds
      the quotient at which any seat-holding party won its last seat. */
  predicate CutOff(parties: seq<string>, totals: map<string, nat>, seats: map<string, nat>)
    requires Covers(parties, totals)
  {
    forall p, q {:trigger SeatsOf(seats, p), Quotient(totals, seats, q)} ::
      p in parties && q in parties && SeatsOf(seats, p) >= 1 ==>
        Quotient(totals, seats, q) <= totals[p] / SeatsOf(seats, p)
  }

  /** Every allocation the greedy steps reach has the cut-off property. */
  lemma {:induction false} AllocationDivisorStable(parties: seq<string>, totals: map<string, nat>, k: nat)
    requires parties != [] && Covers(parties, totals)
    ensures CutOff(parties, totals, Allocation(parties, totals, k))
  {
    if k > 0 {
      AllocationDivisorStable(parties, totals, k - 1);
      var s := Allocation(parties, totals, k - 1);
      var b := NextParty(parties, totals, s);
      var s' := s[b := SeatsOf(s, b) + 1];
      forall p, q | p in parties && q in parties && SeatsOf(s', p) >= 1
        ensures Quotient(totals, s', q) <= totals[p] / SeatsOf(s', p)
      {
        NextPartyBest(parties, totals, s, q);
        if p != b {
          CutOffAt(parties, totals, s, p, q);
        }
        CutOffStep(totals, s, b, p, q);
      }
    }
  }

  /** One greedy step keeps the cut-off between `p` and `q` when `b`, the party with
      the largest quotient, wins the seat. */
  lemma CutOffStep(totals: map<string, nat>, s: map<string, nat>, b: string, p: string, q: string)
    requires b in totals && p in totals && q in totals
    requires Quotient(totals, s, q) <= Quotient(totals, s, b)
    requires p != b && SeatsOf(s, p) >= 1 ==> Quotient(totals, s, q) <= totals[p] / SeatsOf(s, p)
    requires SeatsOf(s[b := SeatsOf(s, b) + 1], p) >= 1
    ensures var s' := s[b := SeatsOf(s, b) + 1];
      Quotient(totals, s', q) <= totals[p] / SeatsOf(s', p)
  {
    var s' := s[b := SeatsOf(s, b) + 1];
    DivAntitone(totals[q], SeatsOf(s, q) + 1, SeatsOf(s', q) + 1);
    if p != b {
      assert SeatsOf(s', p) == SeatsOf(s, p);
    }
  }

  lemma CutOffAt(parties: seq<string>, totals: map<string, nat>, seats: map<string, nat>, p: string, q: string)
    requires Covers(parties, totals) && CutOff(parties, totals, seats)
    requires p in parties && q in parties && SeatsOf(seats, p) >= 1
    ensures Quotient(totals, seats, q) <= totals[p] / SeatsOf(seats, p)
  {
  }

  // ---------------------------------------------------------------------------
  // Candidate ranking: the source's stable `sort_by` on descending votes

  predicate NonIncreasing(s: seq<Entry>)
  {
    forall i, j :: 0 <= i < j < |s| ==> s[i].1 >= s[j].1
  }

  /** Puts `e` before the first entry that does not have more votes. */
  function Insert(e: Entry, s: seq<Entry>): (r: seq<Entry>)
    ensures multiset(r) == multiset(s) + multiset{e}
    ensures |r| == |s| + 1
  {
    if s == [] || e.1 >= s[0].1 then [e] + s
    else
      assert s == [s[0]] + s[1..];
      [s[0]] + Insert(e, s[1..])
  }

  /** The entries in non-increasing order of votes; equal entries keep their order. */
  function RankByVotes(s: seq<Entry>): (r: seq<Entry>)
    ensures multiset(r) == multiset(s)
    ensures |r| == |s|
  {
    if s == [] then []
    else
      assert s == [s[0]] + s[1..];
      Insert(s[0], RankByVotes(s[1..]))
  }

  lemma {:induction false} InsertSorted(e: Entry, s: seq<Entry>)
    requires NonIncreasing(s)
    ensures NonIncreasing(Insert(e, s))
  {
    if s != [] && e.1 < s[0].1 {
      var tail := s[1..];
      InsertSorted(e, tail);
      var t := Insert(e, tail);
      // The head of `t` is `e` or the old second entry; both rank below `s[0]`.
      if tail != [] && e.1 < tail[0].1 {
        assert t[0] == tail[0] == s[1];
      } else {
        assert t[0] == e;
      }
      assert Insert(e, s) == [s[0]] + t;
    }
  }

  /** The ranking is sorted by non-increasing votes. */
  lemma {:induction false} RankSorted(s: seq<Entry>)
    ensures NonIncreasing(RankByVotes(s))
  {
    if s != [] {
      RankSorted(s[1..]);
      InsertSorted(s[0], RankByVotes(s[1..]));
    }
  }

  /** The entries of `s` with exactly `v` votes, in order. */
  function WithVotes(s: seq<Entry>, v: nat): seq<Entry>
  {
    if s == [] then [] else (if s[0].1 == v then [s[0]] else []) + WithVotes(s[1..], v)
  }

  lemma WithVotesCons(x: Entry, t: seq<Entry>, v: nat)
    ensures WithVotes([x] + t, v) == (if x.1 == v then [x] else []) + WithVotes(t, v)
  {
    var r := [x] + t;
    assert r[0] == x && r[1..] == t;
  }

  /** Inserting `e` adds it to the entries with its own vote count, in front of them. */
  lemma {:induction false} InsertWithVotes(e: Entry, s: seq<Entry>, v: nat)
    ensures WithVotes(Insert(e, s), v) == (if e.1 == v then [e] else []) + WithVotes(s, v)
  {
    if s == [] || e.1 >= s[0].1 {
      WithVotesCons(e, s, v);
    } else {
      var rest := Insert(e, s[1..]);
      assert Insert(e, s) == [s[0]] + rest;
      InsertWithVotes(e, s[1..], v);
      WithVotesCons(s[0], rest, v);
      assert s == [s[0]] + s[1..];
      WithVotesCons(s[0], s[1..], v);
      if s[0].1 == v {
        assert e.1 != v;
      }
    }
  }

  /** Stability: among entries with equal votes the ranking keeps the input order. */
  lemma {:induction false} RankStable(s: seq<Entry>, v: nat)
    ensures WithVotes(RankByVotes(s), v) == WithVotes(s, v)
  {
    if s != [] {
      RankStable(s[1..], v);
      InsertWithVotes(s[0], RankByVotes(s[1..]), v);
    }
  }

  // ---------------------------------------------------------------------------
  // Candidate selection

  /** `iter().take(n)`. */
  function Take(cs: seq<Entry>, n: nat): seq<Entry>
  {
    if n < |cs| then cs[..n] else cs
  }

  /** The names of the first `n` candidates of `party` in the ranking. */
  function Elected(votes: seq<Vote>, party: string, n: nat): seq<string>
  {
    Names(Take(RankByVotes(PartyCandidates(votes, party)), n))
  }

  /** The elected candidates of every party that holds a seat. */
  function Slate(votes: seq<Vote>, seats: map<string, nat>): (slate: map<string, seq<string>>)
    ensures slate.Keys == seats.Keys
  {
    map p | p in seats :: Elected(votes, p, seats[p])
  }

  /** Two entries with the same party and candidate are the same entry. */
  lemma SameKeySameVotes(votes: seq<Vote>, v: Vote, w: Vote)
    requires UniqueKeys(votes) && v in votes && w in votes
    requires v.party == w.party && v.candidate == w.candidate
    ensures v.votes == w.votes
  {
    var a :| 0 <= a < |votes| && votes[a] == v;
    var b :| 0 <= b < |votes| && votes[b] == w;
    if a < b {
      assert votes[a].party == votes[b].party;
    } else if b < a {
      assert votes[b].party == votes[a].party;
    }
  }

  /** Entries with distinct names occur once each. */
  lemma {:induction false} DistinctEntriesOnce(cs: seq<Entry>, e: Entry)
    requires Distinct(Names(cs))
    ensures multiset(cs)[e] <= 1
  {
    if cs != [] {
      var n := |cs|;
      var pre := cs[..n - 1];
      assert cs == pre + [cs[n - 1]];
      assert Names(pre) == Names(cs)[..n - 1];
      DistinctEntriesOnce(pre, e);
      if cs[n - 1] == e {
        assert e !in pre;
      }
    }
  }

  /** A rearrangement of entries with distinct names has distinct names. */
  lemma PermutationKeepsNamesDistinct(cs: seq<Entry>, r: seq<Entry>)
    requires Distinct(Names(cs)) && multiset(r) == multiset(cs)
    ensures Distinct(Names(r))
  {
    forall i, j | 0 <= i < j < |r|
      ensures r[i].0 != r[j].0
    {
      assert r[i] in multiset(cs) && r[j] in multiset(cs);
      var a :| 0 <= a < |cs| && cs[a] == r[i];
      var b :| 0 <= b < |cs| && cs[b] == r[j];
      if r[i].0 == r[j].0 {
        if a == b {
          assert r == r[..i] + [r[i]] + r[i + 1..j] + [r[j]] + r[j + 1..];
          assert multiset(r)[r[i]] >= 2;
          DistinctEntriesOnce(cs, r[i]);
        }
      }
    }
  }

  /** Every entry of the ranking of a party's candidates is an entry of the vote map
      under that party, and the ranking's names are distinct. */
  lemma RankedCandidates(votes: seq<Vote>, party: string)
    requires UniqueKeys(votes)
    ensures var ranked := RankByVotes(PartyCandidates(votes, party));
      && Distinct(Names(ranked))
      && forall i :: 0 <= i < |ranked| ==> Vote(party, ranked[i].0, ranked[i].1) in votes
  {
    var cs := PartyCandidates(votes, party);
    var ranked := RankByVotes(cs);
    PartyCandidatesMembers(votes, party);
    PartyCandidatesDistinct(votes, party);
    PermutationKeepsNamesDistinct(cs, ranked);
    forall i | 0 <= i < |ranked|
      ensures Vote(party, ranked[i].0, ranked[i].1) in votes
    {
      assert ranked[i] in multiset(cs);
    }
  }

  /** A party's list has `min(n, #candidates)` distinct names, all of its own
      candidates, and every listed candidate has at least the votes of every unlisted one. */
  lemma ElectedSpec(votes: seq<Vote>, party: string, n: nat)
    requires UniqueKeys(votes)
    ensures var r := Elected(votes, party, n);
      && |r| == (if n < |PartyCandidates(votes, party)| then n else |PartyCandidates(votes, party)|)
      && Distinct(r)
      && (forall i :: 0 <= i < |r| ==> (party, r[i]) in Keys(votes))
      && forall v, w :: (v in votes && w in votes && v.party == party && w.party == party &&
           v.candidate in r && w.candidate !in r) ==> v.votes >= w.votes
  {
    var cs := PartyCandidates(votes, party);
    var ranked := RankByVotes(cs);
    var m := if n < |cs| then n else |cs|;
    var r := Elected(votes, party, n);
    assert Take(ranked, n) == ranked[..m];
    assert r == Names(ranked)[..m];
    RankedCandidates(votes, party);
    forall i | 0 <= i < |r| ensures (party, r[i]) in Keys(votes) {
      assert Vote(party, ranked[i].0, ranked[i].1) in votes;
    }
    ElectedOutrank(votes, party, ranked, m);
  }

  lemma ElectedOutrank(votes: seq<Vote>, party: string, ranked: seq<Entry>, m: nat)
    requires UniqueKeys(votes) && m <= |ranked|
    requires ranked == RankByVotes(PartyCandidates(votes, party))
    requires forall i :: 0 <= i < |ranked| ==> Vote(party, ranked[i].0, ranked[i].1) in votes
    ensures var r := Names(ranked)[..m];
      forall v, w :: (v in votes && w in votes && v.party == party && w.party == party &&
        v.candidate in r && w.candidate !in r) ==> v.votes >= w.votes
  {
    var r := Names(ranked)[..m];
    RankSorted(PartyCandidates(votes, party));
    forall v, w | v in votes && w in votes && v.party == party && w.party == party
      && v.candidate in r && w.candidate !in r
      ensures v.votes >= w.votes
    {
      RankedHolds(votes, w);
      OutrankPair(votes, party, ranked, m, v, w);
    }
  }

  /** Every entry of the vote map appears in the ranking of its party. */
  lemma RankedHolds(votes: seq<Vote>, w: Vote)
    requires w in votes
    ensures (w.candidate, w.votes) in multiset(RankByVotes(PartyCandidates(votes, w.party)))
  {
    PartyCandidatesMembers(votes, w.party);
    assert Vote(w.party, w.candidate, w.votes) == w;
    assert (w.candidate, w.votes) in PartyCandidates(votes, w.party);
  }

  lemma OutrankPair(votes: seq<Vote>, party: string, ranked: seq<Entry>, m: nat, v: Vote, w: Vote)
    requires UniqueKeys(votes) && m <= |ranked| && NonIncreasing(ranked)
    requires forall i :: 0 <= i < |ranked| ==> Vote(party, ranked[i].0, ranked[i].1) in votes
    requires (w.candidate, w.votes) in multiset(ranked)
    requires v in votes && v.party == party
    requires v.candidate in Names(ranked)[..m] && w.candidate !in Names(ranked)[..m]
    ensures v.votes >= w.votes
  {
    var r := Names(ranked)[..m];
    var i :| 0 <= i < m && r[i] == v.candidate;
    var j :| 0 <= j < |ranked| && ranked[j] == (w.candidate, w.votes);
    SameKeySameVotes(votes, Vote(party, ranked[i].0, ranked[i].1), v);
  }

  // ---------------------------------------------------------------------------
  // calculate

  /** Every party total is zero (the source's `votes_by_party.iter().all(|p| p.1 == &0)`). */
  predicate NoVotesCast(totals: map<string, nat>)
  {
    forall p :: p in totals ==> totals[p] == 0
  }

  /** One round of the seat loop: awarding the next seat to the party with the
      largest quotient turns the allocation of `k` seats into that of `k + 1`. */
  lemma AwardNext(parties: seq<string>, totals: map<string, nat>, k: nat, next: string)
    requires parties != [] && Covers(parties, totals) && Distinct(parties)
    requires next == NextParty(parties, totals, Allocation(parties, totals, k))
    ensures var s := Allocation(parties, totals, k);
      s[next := SeatsOf(s, next) + 1] == Allocation(parties, totals, k + 1)
    ensures SumOver(parties, Allocation(parties, totals, k + 1)) == k + 1
  {
    AllocationSum(parties, totals, k + 1);
  }

  /** The seat loop of `calculate`: the first seat goes to the largest
      total, then one seat at a time to the largest quotient until
      `seatCount` seats have been handed out. */
  method AllocateSeats(parties: seq<string>, totals: map<string, nat>, seatCount: nat)
    returns (seats: map<string, nat>)
    requires parties != [] && Distinct(parties) && Covers(parties, totals)
    requires seatCount >= 1
    ensures seats == Allocation(parties, totals, seatCount)
  {
    // `max_by_key` on the totals: the quotient with no seats held.
    var first := NextParty(parties, totals, map[]);
    seats := map[first := 1];
    AllocationOne(parties, totals);
    AllocationSum(parties, totals, 1);
    // The seats handed out, summed over the listed parties (see `SumOver`).
    var handedOut := SumOver(parties, seats);
    while handedOut != seatCount
      invariant 1 <= handedOut <= seatCount
      invariant seats == Allocation(parties, totals, handedOut)
      decreases seatCount - handedOut
    {
      var next := NextParty(parties, totals, seats);
      AwardNext(parties, totals, handedOut, next);
      seats := seats[next := SeatsOf(seats, next) + 1];
      handedOut := SumOver(parties, seats);
    }
  }

  /** `calculate`: validation in the order zero seats, no entries, no votes; then
      one seat to the party with the largest total and one more seat at a time to
      the party with the largest quotient; then each seat-holding party's list. */
  method Calculate(seatCount: nat, votes: seq<Vote>) returns (r: Result<map<string, seq<string>>>)
    ensures r == Err(ZeroSeats) <==> seatCount == 0
    ensures r == Err(NoParties) <==> seatCount > 0 && votes == []
    ensures r == Err(NoVotes) <==> (seatCount > 0 && votes != [] && NoVotesCast(VotesByParty(votes)))
    ensures r.Ok? ==>
      (votes != [] && r.value == Slate(votes, Allocation(PartyOrder(votes), VotesByParty(votes), seatCount)))
  {
    if seatCount == 0 {
      return Err(ZeroSeats);
    }
    if votes == [] {
      return Err(NoParties);
    }
    var totals := VotesByParty(votes);
    if NoVotesCast(totals) {
      return Err(NoVotes);
    }
    var parties := PartyOrder(votes);
    var seats := AllocateSeats(parties, totals, seatCount);
    r := Ok(Slate(votes, seats));
  }
}
