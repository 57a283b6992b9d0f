# D'Hondt seat apportionment and results report, modelled in Dafny

This project models the computational core of `dhondt`, a terminal program that
shares the seats of an election among parties by the D'Hondt (highest averages)
method, hands each party's seats to its best-voted candidates, and prints a
results report.

- `dhondt.dfy` (module `DHondt`) models `calculate` in `src/dhondt.rs`:
  - Validation: zero seats, then an empty vote map, then all party totals zero.
  - The fold that adds up each party's votes.
  - The first seat, which goes to the largest total.
  - The seat loop, which gives one more seat to the largest floor quotient `total / (seats + 1)` until the seats add up to the seat count.
  - Each seat-holding party's list: its candidates sorted stably by descending votes, then cut with `take(seats)`.

  `Calculate` and `AllocateSeats` are imperative methods. The seat map is a `map` that the loop reassigns. Both are proved equal to the specification function `Allocation`. The lemmas about `Allocation` state:
  - the seat total;
  - the largest-quotient choice at every step;
  - monotonicity;
  - the D'Hondt cut-off property.
- `examples_dhondt.dfy` (module `DHondtScenarios`) works through small elections with the specification functions. This includes the tie cases that follow from floor division and from `max_by_key` returning the last of equal maxima.
- `fmt.dfy` (module `Fmt`) holds the pieces of Rust formatting the report relies on:
  - `str::len()` as the UTF-8 byte length;
  - `{:<w$}` and `{:>w$}` padding, which counts characters;
  - `{}` on an unsigned integer.
- `report.dfy` (module `Report`) models `generate_report` in `src/ui/dialogs/results.rs`:
  - the header;
  - the line table: a total row, a blank row, then one block per party in descending order of total, each a party row, one row per candidate in descending order of votes, and a blank row;
  - the status marker;
  - the column widths;
  - the padded rows.

  `GenerateReport`, `BuildLines`, `PushSection` and `MeasureColumns` are the source's loops as methods. Each is proved equal to a specification function. Lemmas state the layout: every row is the same length, and each cell sits at the same offset in every row.
- `report_contents.dfy` (module `ReportContents`) states what the report says about an election:
  - the grand total equals the sum of the party totals;
  - each party appears once, with its total, in non-increasing order;
  - the number of rows;
  - the seat column;
  - when the list map comes from `Calculate`, which candidates get the tick, "?" or a blank.

Modelling choices:
- Vote map: the `HashMap<(party, candidate), u32>` is the sequence of its entries in iteration order. Where a lemma needs the keys to be unique (as a `HashMap`'s are), it says so with `UniqueKeys`.
- Party order: every map keyed by party is iterated in the order in which its party first appears among the entries (`PartyOrder`). This fixes the order the source leaves to the hash map, so the tie-breaks are deterministic.
- `max_by_key`: it returns the last of several equal maxima (`BestIndexIsLastMax`). Among parties with equal quotients, the party iterated last wins the seat.
- The check mark: line 125 of `src/ui/dialogs/results.rs` writes the marker as the three characters "âœ“". Those are the UTF-8 bytes of U+2713 CHECK MARK decoded as Windows-1252. The model uses U+2713 (`Report.Tick`).
- Short lists: where a seat-holding party has fewer candidates than seats, its list holds all its candidates, fewer names than seats. This follows the code's `take`. The report's seat column shows the list's length, so it shows the smaller number (`SeatColumn`, `MoreSeatsThanCandidates`).
- Display order: the report's order among equal totals and among equal-vote candidates is the stable sort's. It keeps the iteration order rather than an alphabetical one.

## Model

| member | source | states |
|---|---|---|
| DHondt.Calculate | src/dhondt.rs:12-80 | The result is `ZeroSeats` exactly when the seat count is 0, and `NoParties` exactly when seats are asked for but the vote map is empty. It is `NoVotes` exactly when seats are asked for, the map is non-empty and every party total is 0. Otherwise it is `Ok` with the lists of `Allocation` for the seat count. |
| DHondt.AllocateSeats | src/dhondt.rs:36-57 | The seat loop, seeded with one seat for the largest total, ends with exactly the allocation `Allocation(parties, totals, seatCount)`. |
| DHondt.AwardNext | src/dhondt.rs:46-56 | Giving one seat to the party with the largest quotient turns the allocation of `k` seats into that of `k + 1`, whose seats add up to `k + 1`. |
| DHondt.PartyOrder | src/dhondt.rs:24-30 | The party iteration order lists each party once, every listed party has a total, and it is non-empty when there are entries. |
| DHondt.PartyOrderKeys | src/dhondt.rs:24-30 | The ordered parties are exactly the parties that have a total, and the party of every entry is among them. |
| DHondt.PartyTotalIsCandidateSum | src/dhondt.rs:24-30 | A party's folded total is the sum of its candidates' votes; a party without a total has no candidates. |
| DHondt.PartyCandidatesMembers | src/dhondt.rs:62-66 | A (candidate, votes) pair is among a party's candidates exactly when the vote map holds that entry under that party. |
| DHondt.PartyCandidatesDistinct | src/dhondt.rs:62-66 | With unique keys, a party's candidates have distinct names. |
| DHondt.BestIndex | src/dhondt.rs:46-54 | `max_by_key` picks an index of the party list. |
| DHondt.BestIndexIsLastMax | src/dhondt.rs:46-54 | The chosen party's quotient is at least every party's, and every party after it has a strictly smaller one: ties go to the party iterated last. |
| DHondt.NextParty | src/dhondt.rs:46-54 | The party that wins the next seat is one of the listed parties. |
| DHondt.NextPartyBest | src/dhondt.rs:46-54 | No listed party has a larger quotient than the party that wins the next seat. |
| DHondt.AllocationOne | src/dhondt.rs:36-38 | After the first seat the seat map holds exactly one seat, for the party `max_by_key` picks on the totals. |
| DHondt.FirstSeat | src/dhondt.rs:36-38 | The first seat goes to a party whose total is at least every other party's. |
| DHondt.AllocationSum | src/dhondt.rs:40-44 | After `k` rounds the seats handed out add up to exactly `k`, so the loop stops at the seat count. |
| DHondt.AllocationStep | src/dhondt.rs:46-56 | Each round adds one seat to a party with the largest quotient and leaves every other party's seats unchanged. |
| DHondt.AllocationKeys | src/dhondt.rs:56 | Only listed parties hold seats, and every party in the seat map holds at least one. |
| DHondt.AllocationGrows | src/dhondt.rs:56 | One more round never takes a seat from any party. |
| DHondt.AllocationMonotone | src/dhondt.rs:40-57 | A party's seats never decrease as more seats are handed out. |
| DHondt.DivAntitone | src/dhondt.rs:52 | A party's floor quotient never grows as its seat count grows. |
| DHondt.AllocationDivisorStable | src/dhondt.rs:40-57 | Every allocation the loop reaches has the D'Hondt cut-off property. No party's next quotient exceeds `total / seats` of any party holding seats, which is the quotient at which that party won its last seat. |
| DHondt.CutOffStep | src/dhondt.rs:46-56 | Giving the seat to the party with the largest quotient keeps the cut-off between any two parties. |
| DHondt.Insert | src/dhondt.rs:67 | Inserting an entry into the ranking adds exactly that entry: the multiset grows by it and the length by one. |
| DHondt.RankByVotes | src/dhondt.rs:67 | The sorted candidates are a rearrangement (same multiset, same length) of the candidates. |
| DHondt.InsertSorted | src/dhondt.rs:67 | Inserting into a list in non-increasing vote order keeps it in that order. |
| DHondt.RankSorted | src/dhondt.rs:67 | `sort_by` on descending votes leaves the candidates in non-increasing vote order. |
| DHondt.InsertWithVotes | src/dhondt.rs:67 | Inserting an entry puts it first among the entries with its own vote count and changes no other vote group. |
| DHondt.RankStable | src/dhondt.rs:67 | The sort is stable: the entries with any given vote count keep their relative order. |
| DHondt.Slate | src/dhondt.rs:59-77 | The lists are keyed by exactly the parties of the seat map. |
| DHondt.RankedCandidates | src/dhondt.rs:62-67 | With unique keys, the ranking of a party's candidates has distinct names, and each ranked entry is an entry of the vote map under that party. |
| DHondt.ElectedSpec | src/dhondt.rs:67-73 | With unique keys, a party's list has `min(seats, candidates)` distinct names, all of them its own candidates. Every listed candidate has at least the votes of every unlisted candidate of the party. |
| DHondt.ElectedOutrank | src/dhondt.rs:67-73 | Cutting the ranking after `m` names leaves no unlisted candidate with more votes than a listed one. |
| DHondt.PermutationKeepsNamesDistinct | src/dhondt.rs:67 | Sorting candidates with distinct names keeps the names distinct. |
| DHondtScenarios.ThreeSeatsTotals | src/dhondt.rs:24-30 | With A1 200, A2 100 and B1 200, the totals are A 300 and B 200, and A is iterated first. |
| DHondtScenarios.ThreeSeats | src/dhondt.rs:36-57 | With totals 300 and 200, three seats go two to the first party and one to the second. |
| DHondtScenarios.ThreeSeatsCandidates | src/dhondt.rs:62-66 | In that election A's candidates are A1 200 then A2 100, and B's is B1 200. |
| DHondtScenarios.ThreeSeatsLists | src/dhondt.rs:67-73 | In that election A elects A1 and A2, and B elects B1. |
| DHondtScenarios.ThreeSeatsAllocation | src/dhondt.rs:24-57 | On the entries A1 200, A2 100 and B1 200, the seat loop with three seats gives A two seats and B one. |
| DHondtScenarios.ThreeSeatsElected | src/dhondt.rs:59-77 | In that election A's list for two seats is A1, A2 and B's for one seat is B1. |
| DHondtScenarios.SlateOfTwo | src/dhondt.rs:59-77 | The lists of a seat map with two parties are those two parties' elected candidates for their seats. |
| DHondtScenarios.ThreeSeatsElection | src/dhondt.rs:12-80 | The lists that `calculate` returns for that election with three seats are exactly A: A1, A2 and B: B1. |
| DHondtScenarios.PairNext | src/dhondt.rs:46-54 | With two parties the seat goes to the second unless the first has the strictly larger quotient. |
| DHondtScenarios.FloorQuotientTie | src/dhondt.rs:52 | With totals 3 and 2 and three seats, the third seat is the floor tie 3/2 = 2/2. It goes to the party iterated last, giving 1 and 2 seats. |
| DHondtScenarios.ZeroVotePartyWins | src/dhondt.rs:46-56 | A party with no votes wins the second seat over a party with 1 vote through the tie 1/2 = 0/1. |
| DHondtScenarios.MoreSeatsThanCandidates | src/dhondt.rs:69-73 | A party with two seats and one candidate lists only that candidate. |
| Fmt.CharBytes | src/ui/dialogs/results.rs:144-147 | A character takes one to four bytes, and exactly one when it is ASCII. |
| Fmt.ByteLenAtLeastChars | src/ui/dialogs/results.rs:144-147 | A string's byte length (`len()`) is at least its number of characters, with equality exactly for ASCII strings. |
| Fmt.ByteLenConcat | src/ui/dialogs/results.rs:144-147 | Byte lengths add up over concatenation. |
| Report.CaptionBytes | src/ui/dialogs/results.rs:91-144 | The measured caption of a party row is its name's bytes plus one for the colon; that of a candidate row is its name's bytes plus four for the bullet. |
| Fmt.PadEnd | src/ui/dialogs/results.rs:152 | `{:<w$}` gives `max(chars, w)` characters: the string, then spaces. |
| Fmt.PadStart | src/ui/dialogs/results.rs:152 | `{:>w$}` gives `max(chars, w)` characters: spaces, then the string. |
| Fmt.NatToString | src/ui/dialogs/results.rs:61 | `{}` on a count gives a non-empty ASCII string of decimal digits with no leading zero. |
| Fmt.NatToStringRoundTrip | src/ui/dialogs/results.rs:61 | Reading the rendered digits back gives the number. |
| Fmt.NatToStringInjective | src/ui/dialogs/results.rs:94 | Different seat counts render differently. |
| Report.CandidateLines | src/ui/dialogs/results.rs:104-136 | The candidate loop produces one row per ranked candidate, and row `i` is candidate `i`'s. |
| Report.ColumnWidthsFit | src/ui/dialogs/results.rs:141-148 | Every cell of every row is at most as many bytes as its column's width. |
| Report.ColumnWidthsAttained | src/ui/dialogs/results.rs:141-148 | Each width is the byte length of some row's cell in that column, so no column is wider than its widest cell. |
| Report.PadToWidth | src/ui/dialogs/results.rs:152 | A cell that fits its width in bytes pads to exactly that many characters. |
| Report.JoinedCells | src/ui/dialogs/results.rs:152 | Four cells joined by four-space gutters and a newline sit at the offsets their widths add up to. |
| Report.FormatRowLayout | src/ui/dialogs/results.rs:150-162 | A row whose cells fit is `RowWidth` characters long. Each padded cell is at the same offset in every such row, and the newline is last. |
| Report.RowsLength | src/ui/dialogs/results.rs:150-162 | With fitting widths the table text is `RowWidth` characters per row. |
| Report.RowsConcat | src/ui/dialogs/results.rs:150-162 | Each row is formatted on its own: the text of two runs of rows is the two texts one after the other. |
| Report.TableLayout | src/ui/dialogs/results.rs:141-162 | Row `i` of the table comes after `i` rows of `RowWidth` characters, is `RowWidth` characters itself, and is followed by the rows after it. |
| Report.ReportLayout | src/ui/dialogs/results.rs:61-164 | The report is the "Seats to assign" header followed by the table text, one `RowWidth` row per line. |
| Report.PushSection | src/ui/dialogs/results.rs:84-139 | One pass of the party loop appends the party row, its ranked candidate rows and a blank row. |
| Report.BuildLines | src/ui/dialogs/results.rs:71-139 | The line table is the total row, a blank row, and the party blocks in sorted order. |
| Report.MeasureColumns | src/ui/dialogs/results.rs:141-148 | The width loop computes each column's largest byte length. |
| Report.GenerateReport | src/ui/dialogs/results.rs:54-165 | The report text is the header followed by every line formatted to the measured widths. |
| ReportContents.TotalIsSumOfParties | src/ui/dialogs/results.rs:63-73 | The folded grand total equals the sum of the party totals. |
| ReportContents.GrandTotal | src/ui/dialogs/results.rs:73 | The "Total of votes" figure equals the sum of the party totals and the sum of the party rows' totals. |
| ReportContents.SumByRank | src/ui/dialogs/results.rs:69 | Sorting the party totals does not change any sum over them. |
| ReportContents.PermutedPairs | src/ui/dialogs/results.rs:67-69 | A rearrangement of the (party, total) pairs lists each party once, with its total. |
| ReportContents.SortedPartiesSpec | src/ui/dialogs/results.rs:63-69 | The sorted party totals list each party with a total exactly once, with its total, which is also the sum of its candidates' votes. The totals do not increase down the list, and equal totals keep the map's iteration order. |
| ReportContents.SectionShape | src/ui/dialogs/results.rs:84-138 | A party's block is its row, then its candidates' rows in ranked order (non-increasing votes, a rearrangement of its candidates), then a blank row. |
| ReportContents.SectionsConcat | src/ui/dialogs/results.rs:84-139 | The blocks of two runs of parties are the two runs' blocks one after the other. |
| ReportContents.PartyBlockAt | src/ui/dialogs/results.rs:76-139 | The table is the total row, a blank row, and the blocks of the parties in sorted order: the `k`-th party's block follows those of the parties before it. |
| ReportContents.CandidatesOfStep | src/ui/dialogs/results.rs:97-101 | Adding an entry to the vote map adds one candidate to the lists of a set of distinct parties exactly when its party is among them. |
| ReportContents.CandidatesOfAll | src/ui/dialogs/results.rs:97-101 | The parties' candidate lists together hold every entry of the vote map once. |
| ReportContents.SectionsLength | src/ui/dialogs/results.rs:84-139 | The blocks have two rows per party plus one row per candidate. |
| ReportContents.LineCount | src/ui/dialogs/results.rs:71-139 | The table has 2 + 2 × (parties) + (entries) rows. |
| ReportContents.SlateListOf | src/ui/dialogs/results.rs:88 | For lists computed from a seat map, the list a party shows is its elected candidates for the seats it holds, and empty when it holds none. |
| ReportContents.SeatColumn | src/ui/dialogs/results.rs:88-94 | The seat column of a party row shows the smaller of the party's seats and its number of candidates. |
| ReportContents.MarkerCases | src/ui/dialogs/results.rs:114-128 | The marker is the tick exactly for a listed candidate. It is "?" exactly for an unlisted candidate with the votes of an earlier listed one, and blank otherwise. |
| ReportContents.FirstNames | src/dhondt.rs:69-73 | With distinct names, entry `k`'s name is among the first `m` names exactly when `k < m`. |
| ReportContents.ElectedPrefix | src/dhondt.rs:67-73 | With unique keys, a ranked candidate is on its party's list for `n` seats exactly when it is among the first `n`. |
| ReportContents.MarkerAtCutoff | src/ui/dialogs/results.rs:104-128 | For a party with `n` seats, the first `n` ranked candidates get the tick. A later candidate gets "?" exactly when it ties the `n`-th, and a blank otherwise. |
| ReportContents.CandidateStatus | src/ui/dialogs/results.rs:104-135 | In the report of a seat allocation, candidate row `i` of a party's block names its `i`-th ranked candidate and carries the marker its seats decide. |

## Left out

- Percentages: `votes as f32 / votes_total as f32 * 100.0` and its `{:.2}` rendering are a function parameter (`Formatters.percent`). Floating point is not modelled; a zero grand total (a NaN) is not modelled either.
- `format_num`: the thousands grouping in `src/numeric.rs` is a function parameter (`Formatters.num`). `src/numeric.rs` is not part of this model.
- Hash map iteration order: the model fixes one order for every party-keyed map, the order of first appearance among the entries. In the source, `votes_by_party` in `calculate` and `party_totals` in `generate_report` are separate hash maps whose iteration orders may differ from that and from each other. Which party wins a quotient tie, and how equal totals or equal-vote candidates are ordered, depend on that order.
- Integer width: vote counts, totals, the grand total and seat counts are unbounded. The source's `u32` sums can overflow; an overflow panics in a debug build and wraps in a release build. Neither is modelled.
- `start_calculation`, `show` and the rest of the user interface: reading the table and the seat count, the error message boxes, the result dialog, the clipboard and saving to a file. These are I/O around the core. Also not part of this model: `src/main.rs`, `src/csv_parser.rs`, `src/ui/validation.rs`, `src/ui/table_columns.rs` and the other dialogs.
- `generate_report` on lists that do not come from `calculate`: the report functions accept any list map. The statements about ticks and the seat column are proved for lists computed from a seat map (`Slate`).
