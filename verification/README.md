# PonsWars verification

A Dafny model of the parts of PonsWars that decide who fights, who wins, who is
paid and what is shown: matchmaking and its randomness, the token bucket, reward
allocation, the battle engine and its replay, the Genesis claim protocol, the
Redis lease, realtime sequencing, chain searches and indexing, the market tape,
and the price it feeds. `dafny verify dfyconfig.toml` checks the whole project.

Where the source changes state in place the model does too: the generator, the
limiter, the repository, the block clock, the indexer, the tape source, the tape
recorder and the gateway are classes, and loops are loops. Each such method is
tied to a function of its inputs or of the old state, and the lemmas are about
those functions. Protocols whose steps interleave (Genesis, lease, realtime) are
step relations, and their theorems are about every run. Reducers that are pure
in the source are functions here.

## How to read it

- `Prng`, `Matchmaking`: rejection sampling and Fisher-Yates are exactly uniform;
  the backtracking search is complete; a schedule always exists.
- `Money`, `Allocation`: exact floors and square roots; the cap loop reaches the
  shortest prefix that settles; conservation and fairness of a distribution, and four
  times the War Points earning twice as much.
- `RateLimit`: sweeping is invisible under one window; the wait is exact; the
  rate is bounded over every run.
- `Scoring`, `Diminishing`, `Resolution`, `Momentum`, `Evidence`, `BattleEngine`,
  `Round`, `RoundFinalization`, `Replay`: the ticks a battle accepts are a plain
  filter of those offered, and its state tells them; a digest fixes that history;
  interleaving across battles shows nowhere; a recording replays to the outcome of the
  live round.
- `Genesis`, `GenesisFlow`, `GenesisEntry`, `GenesisOutcome`: the slot tables, the even
  draw of a card, the store, and the claim protocol over every interleaving of calls,
  failures, crashes and coverage changes; how a wallet is bound to a block nobody knew;
  when a drawn Secret is dealt.
- `Lease`: timed mutual exclusion, with the exact timing bound.
- `Realtime`, `Hub`, `GatewayServer`: the client is never wrong after its first
  snapshot and caught up by any new one; private channels stay private, and followers
  are reached.
- `BlockSearch`, `LogScan`, `BlockClock`: searches with bounds on their reads, a
  splitting range scan, estimated block times between true ones.
- `TimeSeries`, `Tape`, `TapeRecorder`, `TapeReplay`, `MarketIndexer`, `MarketAmounts`,
  `MarketReading`, `MarketPolls`: indexes that agree with a plain filter and sum;
  exactly-once recording; a replay that shows what was read by then; splitting a
  range into polls changes nothing.
- `DexPrice`, `MarketSession`, `Qualification`: the robust median, session
  windows, and qualified activity.
- `Arithmetic`, `Counting`, `Ordering`, `Text`, `Wrappers`, `Feed`, `Cards` hold
  what several of them share.

## Where the code and its documentation part

Each of these is proved, with the exact condition under which the documented
behaviour does hold.

- `nextBelow` accepts bounds above 2^32, for which no word is ever accepted and
  the loop does not end (`Prng.SomeWordIsAcceptedIff`).
- Sides are documented as purely positional (packages/shared-types/src/battle.ts:109-114).
  Both roundings of a component favour the right seat: it is worth between zero
  and 51 millionths of a point, zero exactly when no component rounds, and there
  are two stocks for which whoever sits on the right wins
  (`Scoring.RightSeatIsNeverWorse`, `Scoring.SeatCanDecide`). Changing seats takes
  twice that worth from the right's lead, so it changes who is ahead exactly when
  something rounds and the right was level or ahead by no more than that
  (`Scoring.SeatDecidesIff`).
- General card support is said to be worth the same as an equal charge aimed at a
  specific channel (packages/battle-math/src/scoring.ts:231-232). With no other
  support its strength equals the market's only up to one tenth of a unit, that of
  volume only up to 5 tenths and at 8 and 11, that of Pons only up to 3 and at 5; it
  is less than on the market and more than on the other two everywhere else
  (`Diminishing.GeneralIsWorthTheSameIff`). Beside other support the same holds from
  21 tenths on, of the quotients the strengths are roots of
  (`Diminishing.GeneralBesideOthers`, `Diminishing.StrengthsAgreeIff`). Four times
  the support gives less than four times the strength except where it was too little
  to count (`Diminishing.SupportIsDiminishingIff`).
- `finalizeRound` says a round left in FINALIZING can be retried
  (packages/battle-engine/src/round.ts:315-316). Its own guard at line 291 refuses
  that retry whatever has arrived by then (`RoundFinalization.NeverFinalizedAgain`).
- `replayRound` warns that another order across battles could change digests
  (packages/replay/src/recording.ts:111-115). It cannot
  (`Round.InterleavingIsIrrelevant`).
- The Genesis flow says a crash between the reservation and the database costs
  nothing (packages/genesis-service/src/flow.ts:107-109). Once a reservation has
  landed, no claim is written and no attempt for the wallet is under way, the next
  read, served alone, deals the Secret exactly when the request is stored COMMITTED or
  the vault covers one more reward at that moment; otherwise it deals a Legendary
  (`GenesisOutcome.LandedSecretKeptIff`, `GenesisOutcome.CrashCanLoseSecret`). However
  it is interleaved, and whichever attempt it joins, a read begun after the landing
  that writes the claim keeps the Secret exactly when it had found the request
  COMMITTED or been told of coverage (`GenesisOutcome.LateReadKeepsSecretIff`). No
  crash is needed to lose it: a second read can overtake the call that is still
  waiting for its own reservation (`GenesisOutcome.RaceCanLoseSecret`). For any call
  of any run, `GenesisOutcome.SecretKeptIff` adds that its own attempt did not end out
  of coverage.
- The lease excludes a second holder exactly when the renewal interval and two
  exchanges fit into the expiry (`Lease.OneHolder`, `Lease.TwoHoldersOtherwise`).
  No expiry of a second or less ever fits (`Lease.WhichExpiriesFit`). A holder
  stopped while its `SET` is under way becomes the holder all the same
  (`Lease.AbortWhileAskingHolds`), and in no other phase
  (`Lease.HeldAfterAbortOnly`).
- The rate limiter's sweep uses the window of the call that triggers it: it shows in
  no run exactly when all rules share one window length
  (`RateLimit.SweepNeedsOneWindow`), and for any two lengths a run from the empty
  limiter shows it (`RateLimit.SweepShowsUnderTwo`).
- `blockAtOrBefore` answers genesis, which is later than the target, exactly when
  genesis is (`BlockSearch.BlockAtOrBefore`).
- A snapshot of a channel nothing was published on names sequence -1, which the
  client refuses (`Realtime.SnapshotAcceptedIff`).
- `nextOpenWindow` answers the first window for durations up to an hour and a
  millisecond; for any longer one the first window can be passed over
  (`MarketSession.WindowRuns`, `MarketSession.LongerWindowsCanBeMissed`). For the
  former it throws exactly when the market stays open that long from no instant its
  attempts reach (`MarketSession.NoWindowIff`). They can reach further than the sixty
  days of its message: a market open now that closes before an hour's window could end
  must then stay closed for sixty days and two hours
  (`MarketSession.NoHourLongWindowIff`).
- Whatever they weigh, all qualifying wallets are paid exactly the cap just when an
  even split would give each more than the cap (`Allocation.EveryoneCappedIff`). So it
  is with fewer than fifty wallets and a cap above their number
  (`Allocation.FewWalletsAllCapped`); with fifty or more some weighting leaves somebody
  below it (`Allocation.FiftyWalletsAreNot`). The loop's `remaining < 0` case cannot arise
  (`Allocation.PrefixOverfull`).
- A replay always finalizes on complete data. A live round finalized without its late
  data is what its recording replays to exactly where every battle not already void
  had accepted no tick and waited out the limit (`Replay.ReplayOfIncompleteIff`).
- Pons trades of one instant may be listed in another order when a range is read
  in other polls; everything else is the same (`MarketPolls.SplitsAgree`).

## Assumptions

- SHA-256 is a parameter. Its digests are taken to have 64 characters; nothing is
  assumed about collisions, and what a digest fixes it fixes up to two different texts
  hashed along the way to one value. Where a loop must end, the stream keeps producing
  words in the lower half of their range.
- `Array.prototype.sort` is a stable insertion sort. A JavaScript `Map` is a map,
  except where its entries are walked, where it is a list of entries.
- `bigint` is `int`, with truncating division written out where operands can be
  negative. Milliseconds are integers.
- The RPC endpoint, the Redis server, the vault contract and the block source are
  functions or steps of an environment that may do anything their comments allow.

## Model

| member | source | states |
|---|---|---|
| Prng.RejectionIsUniform | packages/battle-math/src/prng.ts:119-137 | every residue below the bound is reached by exactly the same number of accepted words |
| Prng.SomeWordIsAcceptedIff | packages/battle-math/src/prng.ts:119-137 | a draw can end exactly for bounds up to 2^32 |
| Prng.ShufflePermutes | packages/battle-math/src/prng.ts:146-160 | whatever is drawn, a shuffle only rearranges |
| Prng.ShuffleIsBijective | packages/battle-math/src/prng.ts:146-160 | every permutation of distinct items comes from exactly one draw vector |
| Prng.ShuffleIsUniform | packages/battle-math/src/prng.ts:119-160 | every permutation comes from equally many vectors of accepted words |
| Prng.DeterministicPrng.constructor | packages/battle-math/src/prng.ts:65-71 | a fresh generator stands at the start of its stream |
| Prng.DeterministicPrng.NextByte | packages/battle-math/src/prng.ts:73-98 | bytes come in stream order across block refills |
| Prng.DeterministicPrng.NextWord | packages/battle-math/src/prng.ts:119-137 | four bytes of the stream, big-endian |
| Prng.WordsInByteOrder | packages/battle-math/src/prng.ts:119-137 | words stand in the order of their bytes, the first weighing most, so different bytes are different words |
| Prng.DeterministicPrng.NextBelow | packages/battle-math/src/prng.ts:119-137 | the first accepted word, reduced; a bound that is not positive is refused and consumes nothing |
| Prng.DeterministicPrng.Shuffle | packages/battle-math/src/prng.ts:146-160 | the in-place loop is the shuffle by the draws of the stream at its position |
| Matchmaking.MatchupKeyIsUnordered | packages/battle-math/src/matchmaking.ts:25-27 | one key for each unordered matchup, and never one key for two |
| Matchmaking.CooldownSet | packages/battle-math/src/matchmaking.ts:37-45 | the keys of the newest two rounds and no others |
| Matchmaking.PairInOrder | packages/battle-math/src/matchmaking.ts:61-87 | the loop and recursion are the search function the lemmas are about |
| Matchmaking.SearchTakesFirstPath | packages/battle-math/src/matchmaking.ts:61-87 | the answer is the first schedule in search order; null only when there is no path at all |
| Matchmaking.PathIsSchedule | packages/battle-math/src/matchmaking.ts:47-87 | what the search returns pairs every ticker once and keeps the cooldown |
| Matchmaking.SearchIsComplete | packages/battle-math/src/matchmaking.ts:47-87 | null exactly when no schedule that keeps the cooldown exists |
| Matchmaking.Augment | packages/battle-math/src/matchmaking.ts:55-59 | with half the roster open to every ticker, any partial matching grows by a battle |
| Matchmaking.ScheduleExists | packages/battle-math/src/matchmaking.ts:55-59 | 2m tickers with m free opponents each always have a schedule |
| Matchmaking.SearchSucceeds | packages/battle-math/src/matchmaking.ts:55-87 | the search never returns null on such a roster |
| Matchmaking.CooldownLeavesOpponents | packages/battle-math/src/matchmaking.ts:29-45 | two past rounds cost a ticker at most two opponents |
| Matchmaking.ScheduleRound | packages/battle-math/src/matchmaking.ts:116-140 | wrong roster sizes and duplicates are refused; otherwise the shuffled roster is searched |
| Matchmaking.EveryOrderIsDrawn | packages/battle-math/src/matchmaking.ts:116-140 | for every order of a roster there are words that shuffle it so |
| Matchmaking.RoundIsScheduled | packages/battle-math/src/matchmaking.ts:116-140 | ten distinct tickers get a valid schedule of five battles whenever one exists, which it does after proper rounds |
| Matchmaking.SeasonNeverStuck | packages/battle-math/src/matchmaking.ts:116-140 | a season of any rosters of ten, shuffled in any way, never lacks a schedule |
| Matchmaking.NoEarlyRematch | packages/battle-math/src/matchmaking.ts:29-45 | over such a season no matchup returns within two rounds |
| Money.IntegerSqrt | packages/shared-types/src/money.ts:152-167 | Newton's loop ends at the exact floor of the root; negatives are refused |
| Money.FloorSqrtIsOnly | packages/shared-types/src/money.ts:138-167 | the floor of the root is the only number with its square not above and the next square above |
| Money.RewardWeightMonotone | packages/shared-types/src/rewards.ts:125-132 | more War Points never weigh less |
| Money.RewardWeightPositive | packages/shared-types/src/rewards.ts:125-132 | any War Points at all weigh at least one unit of the scale |
| Money.RootOfMultiple | packages/shared-types/src/rewards.ts:116-132 | the floored root of `n * n` times a number is `n` times its floored root, to within `n` units |
| Allocation.ShareNeverFalls | packages/rewards-math/src/allocation.ts:164-210 | capping an overfull wallet lowers no other share |
| Allocation.BatchIsSteps | packages/rewards-math/src/allocation.ts:164-210 | capping a batch in one pass is capping its wallets one at a time |
| Allocation.PrefixOverfull | packages/rewards-math/src/allocation.ts:164-210 | up to the settling prefix each next wallet overflows in turn, and what remains is never negative |
| Allocation.SharesBound | packages/rewards-math/src/allocation.ts:191-205 | flooring loses less than a unit for each wallet sharing |
| Allocation.AmountsConserve | packages/rewards-math/src/allocation.ts:164-210 | amounts never exceed the distributable; while somebody is uncapped only flooring is lost |
| Allocation.AmountsAreFair | packages/rewards-math/src/allocation.ts:164-210 | amounts lie between zero and the cap and never decrease with weight |
| Allocation.EqualWeightsEqualAmounts | packages/rewards-math/src/allocation.ts:164-210 | the cap never separates equal weights |
| Allocation.EveryoneCappedIff | packages/rewards-math/src/allocation.ts:164-210 | every weighting of that many wallets is held to the cap throughout exactly when an even split would give each more than the cap |
| Allocation.FewWalletsAllCapped | packages/rewards-math/src/allocation.ts:164-210 | fewer wallets than fifty and than the cap are such a case: all are paid exactly the cap |
| Allocation.FiftyWalletsAreNot | packages/rewards-math/src/allocation.ts:164-210 | with fifty or more an even split never gives that much, so some weighting leaves a wallet below the cap |
| Allocation.CheckStandings | packages/rewards-math/src/allocation.ts:114-125 | duplicates and negative War Points are refused in the order met; otherwise one entry a wallet |
| Allocation.RewardWeights | packages/rewards-math/src/allocation.ts:158-162 | each wallet's weight and their sum |
| Allocation.PassTotals | packages/rewards-math/src/allocation.ts:170-189 | what is left and what the uncapped weigh |
| Allocation.SharePass | packages/rewards-math/src/allocation.ts:191-209 | one pass caps exactly wallets that overflow and says whether it was stable |
| Allocation.ShareOut | packages/rewards-math/src/allocation.ts:164-210 | the passes end, with exactly the shortest settling prefix capped and everyone's share by it |
| Allocation.Finish | packages/rewards-math/src/allocation.ts:212-243 | the claim threshold is applied last, to what a wallet would have received |
| Allocation.AllocateDistribution | packages/rewards-math/src/allocation.ts:105-243 | the errors in their order, or the distribution as a function of the inputs |
| Allocation.RankedIsProper | packages/rewards-math/src/allocation.ts:129-156 | the ranking has one entry a wallet, each with enough War Points, heaviest first |
| Allocation.RankedIff | packages/rewards-math/src/allocation.ts:129-132 | exactly the standings with fifty War Points or more are ranked, as often as listed |
| Allocation.RankedInOrder | packages/rewards-math/src/allocation.ts:148-156 | more War Points first, and of as many the lesser address |
| Allocation.EntriesAre | packages/rewards-math/src/allocation.ts:127-226 | four fifths of the pool is distributed; the capped come first and earn a fiftieth of it; a share is paid whole or carried whole as it reaches the threshold |
| Allocation.TotalsAre | packages/rewards-math/src/allocation.ts:105-243 | the weights of the entries add up to the total, and entries and unqualified wallets are all standings |
| Allocation.WeightsAreRoots | packages/shared-types/src/rewards.ts:125-132 | an entry's weight is the floored square root of its War Points at the scale of nine decimals |
| Allocation.UncappedFollowWeights | packages/rewards-math/src/allocation.ts:191-205 | two uncapped wallets earn in the proportion of their weights, to within a unit |
| Allocation.SquaredPointsEarnInProportion | packages/shared-types/src/rewards.ts:116-132 | with `n * n` times the War Points a wallet weighs `n` times as much, and uncapped earns at least `n` times as much and at most that within the rounding |
| Allocation.DistributionConserves | packages/rewards-math/src/allocation.ts:105-243 | paid plus carried is the pool; at most four fifths is paid |
| Allocation.DistributionIsFair | packages/rewards-math/src/allocation.ts:105-243 | nobody over a fiftieth, nothing below the threshold but zero, more War Points never earn less, equal ones the same |
| Allocation.RowOrderIsIrrelevant | packages/rewards-math/src/allocation.ts:105-243 | permuting the standings changes nothing |
| RateLimit.MemoryRateLimit.constructor | apps/api/src/rate-limit.ts:58-62 | a new limiter has no buckets |
| RateLimit.MemoryRateLimit.Charge | apps/api/src/rate-limit.ts:64-78 | one call in a thousand sweeps first; then the key's bucket is charged |
| RateLimit.MemoryRateLimit.Sweep | apps/api/src/rate-limit.ts:64-72 | exactly the buckets idle for a whole window go |
| RateLimit.SweepingIsInvisible | apps/api/src/rate-limit.ts:58-80 | under one window the sweeping limiter answers as one that never sweeps, on every run |
| RateLimit.SweepShowsUnderTwo | apps/api/src/rate-limit.ts:58-80 | for any two window lengths a run from the empty limiter, given here, is answered otherwise than without sweeping |
| RateLimit.SweepNeedsOneWindow | apps/api/src/rate-limit.ts:58-80 | the sweep shows in no run over a set of window lengths exactly when they are one length |
| RateLimit.AdmittedIff | apps/api/src/rate-limit.ts:88-99 | a request is admitted exactly when its bucket holds its price |
| RateLimit.WaitIsExact | apps/api/src/rate-limit.ts:88-99 | a refused caller who returns alone is admitted exactly from the told instant on |
| RateLimit.RateIsBounded | apps/api/src/rate-limit.ts:58-99 | any stretch of any run admits at most a full bucket and the refill over it |
| Scoring.DivScaledIsFloor | packages/battle-math/src/scale.ts:50-61 | the corrected `bigint` quotient is the floor, whatever the signs above and below |
| Scoring.LeftPartInRange | packages/battle-math/src/scoring.ts:151-155 | no component leaves its weight |
| Scoring.PartFollowsLead | packages/battle-math/src/scoring.ts:151-171 | a component gives half its weight, moved by the lead in proportion to the divisor to within the two roundings, and all of it from a lead of the divisor on |
| Scoring.ExactlyAHundred | packages/battle-math/src/scoring.ts:248-304 | every component is split whole and the sides total exactly a hundred |
| Scoring.StrongerScoresMore | packages/battle-math/src/scoring.ts:163-304 | at least as good on every input means at least as many points, part by part |
| Scoring.AdjustedReturnIs | packages/battle-math/src/scoring.ts:179-184 | a return is measured in volatilities, rounded down |
| Scoring.CalmerCountsFurther | packages/battle-math/src/scoring.ts:173-184 | of two stocks with one return the calmer counts as having moved further, up or down |
| Scoring.StrengthOfSquares | packages/battle-math/src/scoring.ts:186-205 | Pons strength is seven tenths the root of the activity and three tenths that of the wallets |
| Scoring.StrengthOfSupport | packages/battle-math/src/scoring.ts:207-240 | aimed support counts 45, 25 and 20 of ninety by channel, and by its root |
| Scoring.ComponentSkew | packages/battle-math/src/scoring.ts:151-171 | what the right seat gains on one component, and exactly when it gains nothing |
| Scoring.RightSeatIsNeverWorse | packages/shared-types/src/battle.ts:109-114 | over a whole score the right seat gains 0 to 51 millionths, 0 exactly when nothing rounds |
| Scoring.SeatDecidesIff | packages/battle-math/src/scoring.ts:248-304 | who is ahead changes with the seats exactly when something rounds and the right was level or led by no more than twice what its seat is worth, at most 102 millionths |
| Scoring.SeatCanDecide | packages/battle-math/src/scoring.ts:248-304 | two stocks for which the right seat wins either way |
| Diminishing.ActivityIsDiminishing | packages/battle-math/src/scoring.ts:186-205 | four times the activity and wallets are worth exactly twice the strength, within two millionths |
| Diminishing.SupportIsDiminishingIff | packages/battle-math/src/scoring.ts:207-240 | four times the card support gives less than four times the strength exactly when it counted for anything |
| Diminishing.StrengthsAgreeIff | packages/battle-math/src/scoring.ts:239-240 | two sides have one strength exactly where their quotients by ninety agree, as long as these are below a quarter of a million million |
| Diminishing.StrengthsMeet | packages/battle-math/src/scoring.ts:239-240 | from there on neighbouring quotients can share a strength |
| Diminishing.GeneralBesideOthers | packages/battle-math/src/scoring.ts:231-239 | beside any other support: from 17 tenths general is worth less than on the market, from 21 more than on volume, from 13 more than on Pons |
| Diminishing.GeneralIsWorthTheSameIff | packages/battle-math/src/scoring.ts:231-240 | with no other support, the exact amounts at which the strength of general support equals that of the same amount on the market, volume or Pons, and which is worth more otherwise |
| Resolution.DecidedAt | packages/battle-math/src/resolution.ts:110-153 | the first place the standings differ decides, names the step and sets the margin |
| Resolution.HashMattersIff | packages/battle-math/src/resolution.ts:93-153 | without a hash it throws exactly on a dead heat; otherwise the hash has no say |
| Resolution.ResolvesByStanding | packages/battle-math/src/resolution.ts:110-153 | the winner leads at the first difference; a tiebreak is named exactly when totals tie, with margin zero |
| Resolution.DeadHeatIsHashed | packages/battle-math/src/resolution.ts:43-63 | in a dead heat the digest's bit over the plain hash and the battle's id picks the side, with the hash's prefix or without |
| Resolution.CaseIsIrrelevant | packages/battle-math/src/resolution.ts:43-58 | nor does the case of the hash's digits show |
| Resolution.VictoryIff | packages/battle-math/src/resolution.ts:190-203 | when each victory label is given: upsets by confidence, then a comeback, then the margin |
| Resolution.DeadHeatIsEven | packages/battle-math/src/resolution.ts:93-100 | a scored battle needs the chain exactly when all four components split evenly |
| Momentum.AdvantageIsFair | packages/battle-math/src/momentum.ts:88-94 | the advantage mirrors when sides swap, and is zero exactly within fifty millionths of even |
| Momentum.NextRemembers | packages/battle-math/src/momentum.ts:108-151 | one tick's memory is the memory of the whole run with that tick |
| Momentum.ShownByLead | packages/battle-math/src/momentum.ts:108-151 | short of a comeback the state shown is the lead against the thresholds, whichever side leads |
| Momentum.PeaksAreMaxima | packages/battle-math/src/momentum.ts:108-151 | the peaks are the running maxima of each side's lead |
| Momentum.ComebackIff | packages/battle-math/src/momentum.ts:108-204 | a comeback shows exactly when the side ahead was behind by the threshold earlier, and the kept memory agrees |
| Evidence.EncodeSideInjective | packages/battle-engine/src/evidence.ts:21-36 | an encoded side determines its inputs |
| Evidence.PayloadInjective | packages/battle-engine/src/evidence.ts:58-75 | a written tick determines the tick |
| Evidence.SameLengthHistory | packages/battle-engine/src/evidence.ts:58-75 | equal digests over equally many ticks mean the same ticks in the same order, or two different texts hashed for them collide |
| Evidence.DigestFixesHistory | packages/battle-engine/src/evidence.ts:49-75 | dropping, adding, reordering or altering a tick changes the digest, or two different texts hashed for the histories collide |
| Evidence.CollisionsCanBeAbsent | packages/battle-engine/src/evidence.ts:58-75 | any two different ticks have a digest of 64 characters that never collides on them, so the escape is not always there |
| BattleEngine.StepTells | packages/battle-engine/src/engine.ts:204-299 | each tick keeps the state telling exactly the accepted history |
| BattleEngine.RunTells | packages/battle-engine/src/engine.ts:204-299 | so does every run: digest, count, score of the last accepted inputs, momentum memory, comeback flag |
| BattleEngine.TickOutcomes | packages/battle-engine/src/engine.ts:204-235 | which ticks are ignored, void the battle, are refused, or count, from the state and the tick alone |
| BattleEngine.HistoryIsFilter | packages/battle-engine/src/engine.ts:204-299 | the history of a run is a plain filter of the offered ticks: those in the window no earlier one is later than, up to the first from a broken feed, which voids; it throws exactly when one that counts cannot be scored |
| BattleEngine.UpdateShows | packages/battle-engine/src/engine.ts:270-299 | the time left, healthy exactly where both feeds are, and the tier of all support together |
| BattleEngine.OpensIff | packages/battle-engine/src/engine.ts:169-177 | a battle opens exactly from its scheduled state at or after its start |
| BattleEngine.ResultTellsHistory | packages/battle-engine/src/engine.ts:325-426 | a result names its battle and carries the digest of exactly the accepted ticks, the stored score, the resolved winner and tiebreak, and the label of the winner's confidence, the margin and the comeback last shown |
| BattleEngine.ExactlyOnce | packages/battle-engine/src/engine.ts:169-426 | a settled or voided battle cannot be opened, ticked or finalized again |
| BattleEngine.FinalizeRefusesIff | packages/battle-engine/src/engine.ts:325-426 | a live battle refuses finalization exactly when early or in a dead heat without a usable hash |
| BattleEngine.EndsIff | packages/battle-engine/src/engine.ts:325-380 | exactly when a live battle waits for late data and when it is given up |
| BattleEngine.DigestFixesBattle | packages/battle-engine/src/engine.ts:204-268 | one digest, one history, score, inputs and momentum, or two different texts hashed for the battles collide |
| Round.AggregateCardSupport | packages/battle-math/src/scoring.ts:76-89 | the loop sums each channel over the cards |
| Round.CreatedRound | packages/battle-engine/src/round.ts:140-179 | one unopened battle for each pairing, under distinct ids and one clock |
| Round.PhasesInOrder | packages/shared-types/src/round.ts:85-98 | phases go one at a time, any but the last can be voided, and neither end is left |
| Round.CheckPicks | packages/battle-engine/src/round.ts:209-219 | one pick a wallet, each on a battle of the round |
| Round.FitIff | packages/battle-engine/src/round.ts:209-219 | that is, every pick is on a battle of the round and no wallet has two |
| Round.OpenBattles | packages/battle-engine/src/round.ts:221-229 | every battle opens with the cards behind its sides, or locking throws |
| Round.SupportIsGiven | packages/battle-math/src/scoring.ts:76-89 | support behind a side is, channel by channel, what the picks that back it in the battle give |
| Round.LockedRound | packages/battle-engine/src/round.ts:197-230 | locking keeps the round's name, clock and battles and takes down the picks |
| Round.LockedSupport | packages/battle-engine/src/round.ts:221-229 | a locked battle is the same battle, live, with that support on each side |
| Round.LockRound | packages/battle-engine/src/round.ts:197-230 | exactly when a round locks, and the round it locks to |
| Round.RoundIsItsBattles | packages/battle-engine/src/round.ts:233-245 | a run of a round is its battles' own runs side by side |
| Round.InterleavingIsIrrelevant | packages/battle-engine/src/round.ts:233-245 | interleavings that keep each battle's order reach the same round, digests included, or all throw |
| RoundFinalization.AwardsFor | packages/battle-engine/src/round.ts:341-389 | the loop over picks writes the awards of each pick in order |
| RoundFinalization.FinalizeRound | packages/battle-engine/src/round.ts:283-331 | the loop is the finalization function the lemmas are about |
| RoundFinalization.SettledBattles | packages/battle-engine/src/round.ts:283-331 | settling fails exactly when one battle does; otherwise each is settled, voided or waiting |
| RoundFinalization.FinalizingIff | packages/battle-engine/src/round.ts:312-331 | FINALIZING exactly while a live battle may wait for data, and then nothing is paid |
| RoundFinalization.NeverFinalizedAgain | packages/battle-engine/src/round.ts:283-331 | no round is finalized twice, and none left waiting is ever finalized |
| RoundFinalization.NeedsHashExactly | packages/battle-engine/src/round.ts:263-271 | without a hash finalization throws exactly when one was said to be needed |
| RoundFinalization.LockedSound | packages/battle-engine/src/round.ts:197-230 | a locked round starts with an empty history |
| RoundFinalization.TicksKeepSound | packages/battle-engine/src/round.ts:233-245 | any ticks keep every battle telling its history |
| RoundFinalization.AwardsPayPicks | packages/battle-engine/src/round.ts:341-389 | only wallets that picked are paid, each for its own pick, no award twice |
| RoundFinalization.RoundPaysWinners | packages/battle-engine/src/round.ts:341-389 | the awards of a pick are exactly the one of the winner's confidence and two points for a card, or none; the reason is an upset exactly when the result's label is |
| RoundFinalization.LabelFitsDue | packages/shared-types/src/rewards.ts:44-69 | a result is labelled an upset exactly where its winner's confidence pays one |
| RoundFinalization.FinalizationAnyTime | packages/battle-engine/src/round.ts:283-331 | the instant of finalization shows only in the dates of results |
| Replay.ReplayRound | packages/replay/src/recording.ts:98-122 | the nested loops are the run of the grouped events |
| Replay.SampleLogs | packages/replay/src/recording.ts:143-209 | the recorder's nested loops sample every battle at every instant |
| Replay.SamplesAreTimely | packages/replay/src/recording.ts:143-209 | from a punctual source every sample lies in its battle's window, one a minute |
| Replay.RecordRound | packages/replay/src/recording.ts:143-209 | what a recorder observed is what its recording replays to |
| Replay.LogsKeepInputs | packages/replay/src/recording.ts:98-122 | grouping a live run by battle keeps each battle's inputs in order |
| Replay.ReplayReproduces | packages/replay/src/recording.ts:98-122 | any live run, however interleaved, replays to its own state, digests, results and awards |
| Replay.ReplayReproducesLate | packages/replay/src/recording.ts:98-122 | so does a round finalized later on complete data, up to the dates on results |
| Replay.ReplayOfIncompleteIff | packages/replay/src/recording.ts:98-122 | a round finalized on incomplete data replays to itself exactly when every battle not already void accepted no tick and waited out the limit |
| Cards.CardsOfRarity | packages/shared-types/src/cards.ts:180-182 | exactly the cards of a rarity, and at least one |
| Cards.InCatalogOrder | packages/shared-types/src/cards.ts:179-182 | no card twice, and in the catalog's order |
| Genesis.SlotTables | packages/shared-types/src/genesis.ts:50-170 | both tables cover every slot in bands of the published rates and differ only in the secret band, which falls to Legendary |
| Genesis.TablesAgree | packages/battle-math/src/genesis-rng.ts:142-168 | block and wallet fix the card; only a secret draw depends on the table |
| Genesis.CardIsDealt | packages/battle-math/src/genesis-rng.ts:142-168 | the slot drawn gives the rarity, and the slot and the draw below the rarity's number of cards give the card; nothing else enters |
| Genesis.OneDrawDealsEach | packages/battle-math/src/genesis-rng.ts:148-157 | each card of the drawn rarity is dealt by exactly one draw |
| Genesis.DealtInOrder | packages/battle-math/src/genesis-rng.ts:148-157 | later draws deal later cards of the catalog |
| Genesis.CardsAreEven | packages/battle-math/src/genesis-rng.ts:130-157 | every card of the drawn rarity is dealt by equally many of the words the generator accepts |
| Genesis.MemoryGenesisRepository.constructor | packages/genesis-service/src/memory.ts:12-15 | an empty store numbering from one |
| Genesis.MemoryGenesisRepository.Open | packages/genesis-service/src/memory.ts:20-27 | the first target block of a wallet stands |
| Genesis.MemoryGenesisRepository.Commit | packages/genesis-service/src/memory.ts:29-36 | a committed request replaces a pending one and nothing else |
| Genesis.MemoryGenesisRepository.Record | packages/genesis-service/src/memory.ts:38-71 | a result is recorded once; a second call returns the first claim |
| GenesisFlow.ReserveSound | packages/chain/src/secret-vault.ts:71-81 | a reservation joins the attempt under way for its wallet or starts the only one |
| GenesisOutcome.ReservationJoins | packages/chain/src/secret-vault.ts:71-81 | a reservation waits for the attempt in flight for its wallet, and one is started only where there is none |
| GenesisFlow.ProceedSound | packages/chain/src/secret-vault.ts:83-108 | whatever the contract answers, an attempt ends only in a landed reservation, in no coverage, or in failure |
| GenesisFlow.LandSound | contracts/src/SecretStockVault.sol:127-138 | a transaction reserves once for a wallet, and where the vault covers it |
| GenesisOutcome.LandsIff | contracts/src/SecretStockVault.sol:127-138 | a transaction reserves exactly where the wallet had no reservation and the vault covers it, and lands once |
| GenesisFlow.StepSound | packages/genesis-service/src/flow.ts:211-343 | any step of any call, attempt, transaction or crash keeps the protocol sound and takes nothing back |
| GenesisFlow.RunSound | packages/genesis-service/src/flow.ts:211-343 | so does every run |
| GenesisFlow.EveryRunIsHonest | packages/genesis-service/src/flow.ts:211-343 | every claim's card is its block's under the table it names, a Secret has its reservation, a COMMITTED request is a Secret under the funded table, one attempt at a time a wallet, no number twice |
| GenesisFlow.ClaimIsItsDraws | packages/battle-math/src/genesis-rng.ts:142-168 | over every run a claim's card is the one the two draws of its own block and wallet deal |
| GenesisEntry.BoundAhead | packages/genesis-service/src/flow.ts:223-257 | over every run a wallet has a request only after its balance was read as enough, and its block lies exactly ten past a head read after that |
| GenesisEntry.NothingBeforeFinality | packages/genesis-service/src/flow.ts:274-294 | over every run a wallet's draw is taken, stored or claimed only after a read said that its block was final |
| GenesisFlow.NothingIsTakenBack | packages/genesis-service/src/memory.ts:20-71 | target blocks, claims and reservations never change once there |
| GenesisFlow.ShownIsRecorded | packages/genesis-service/src/flow.ts:307-343 | every card shown is the claim on record |
| GenesisFlow.TableDecidesSecret | packages/genesis-service/src/flow.ts:259-343 | a drawn Secret is recorded as one exactly under the funded table, and always if the vault never said it was uncovered |
| GenesisOutcome.OnlyRecordingWrites | packages/genesis-service/src/flow.ts:307-343 | a claim appears exactly where a call records its card over none |
| GenesisOutcome.NumbersInTurn | packages/genesis-service/src/memory.ts:36-71 | over every run the next Genesis number is one more than the claims on record |
| GenesisOutcome.SecretKeptIff | packages/genesis-service/src/flow.ts:259-343 | over every run, a drawn Secret is dealt exactly when the call that records it found the request COMMITTED or was told of coverage, and its reservation did not end uncovered; otherwise a Legendary is |
| GenesisOutcome.LandedSecretKeptIff | packages/genesis-service/src/flow.ts:101-110 | from any reachable world with the reservation landed and no claim and no attempt under way, the next read served alone deals the Secret exactly when the request is stored COMMITTED or the vault covers one more reward |
| GenesisOutcome.LateReadKeepsSecretIff | packages/genesis-service/src/flow.ts:259-343 | over every run, a read begun after the landing, or after a crash since, is never told by an attempt that the vault is out of coverage; where it writes the claim, the Secret is dealt exactly when it found the request COMMITTED or was told of coverage |
| GenesisOutcome.UncoveredDealsLegendary | packages/genesis-service/src/flow.ts:285-294 | in any such world, reserved or not, a pending Secret read while uncovered is recorded as a Legendary |
| GenesisOutcome.OrdinaryIsDealt | packages/genesis-service/src/flow.ts:259-343 | in any such world, with a vault or without, a pending request that drew no Secret is dealt its card when read alone after its block, and the read answers with the claim |
| GenesisOutcome.FreshSecretIsDealt | packages/genesis-service/src/flow.ts:308-343 | a Secret drawn while the vault covers it, whose reservation is sent, lands and is confirmed, is entitled on chain and dealt with that transaction |
| GenesisOutcome.ReadAnswers | packages/genesis-service/src/flow.ts:213-283 | who asks is told there is no request, the claim on record, the block still waited for, or not to be eligible |
| GenesisOutcome.FailedIsHeldBack | packages/genesis-service/src/flow.ts:308-327 | a Secret whose reservation fails is stored COMMITTED and shown to nobody |
| GenesisOutcome.CrashCanLoseSecret | packages/genesis-service/src/flow.ts:101-110 | a run with a crash that deals a reserved Secret as a Legendary |
| GenesisOutcome.RaceCanLoseSecret | packages/genesis-service/src/flow.ts:211-294 | a run without one, where a second read overtakes the call that reserved |
| Lease.OnlyTheOwnerTouches | packages/redis/src/lease.ts:25-38 | while a key lives only its owner's commands change it, whatever the timing |
| Lease.NextSafe | packages/redis/src/lease.ts:91-194 | every step keeps each holder's key ahead of its expiry |
| Lease.OneHolder | packages/redis/src/lease.ts:91-194 | with interval and two exchanges within the expiry no run has two holders |
| Lease.TwoHoldersOtherwise | packages/redis/src/lease.ts:91-194 | otherwise some run has |
| Lease.WhichExpiriesFit | packages/redis/src/lease.ts:91-121 | which expiries that is for the interval the code derives |
| Lease.HeldAfterAbortOnly | packages/redis/src/lease.ts:91-194 | a stopped instance holds the lease only if it was stopped during its `SET` |
| Lease.AbortWhileAskingHolds | packages/redis/src/lease.ts:91-121 | and then it does |
| Lease.ReleaseFrees | packages/redis/src/lease.ts:33-38 | once a release arrives the key is gone and any other holder's `SET` takes the lease |
| Realtime.NotedAllIsMax | packages/realtime/src/hub.ts:222-236 | noted numbers only move a channel forward, to the largest heard |
| Realtime.TakeoverContinuesIff | packages/realtime/src/hub.ts:215-236 | a successor continues where events left off exactly when it heard the last of them |
| Realtime.SnapshotAcceptedIff | packages/realtime/src/receiver.ts:131-143 | a snapshot is accepted exactly when something was published on the channel |
| Realtime.DeliverKeepsClient | packages/realtime/src/receiver.ts:61-121 | only the event right after the last number is ever applied |
| Realtime.ClientIsNeverWrong | packages/realtime/src/receiver.ts:61-143 | under any loss, repetition and reordering a snapshotted client shows the server's state after its number, having applied consecutive numbers |
| Realtime.ReceiveIff | packages/realtime/src/receiver.ts:61-128 | what becomes of an envelope, exactly: the next of its channel is applied, and a gap waits for a snapshot and says how many are missing |
| Realtime.SnapshotEndsWait | packages/realtime/src/receiver.ts:131-143 | a snapshot ends its channel's wait and no other, and the event after it is applied |
| Realtime.SnapshotCatchesUp | packages/realtime/src/receiver.ts:131-143 | whatever came before, a snapshot taken now brings the client to everything published |
| Realtime.DeliveryKeepsStep | packages/realtime/src/receiver.ts:61-128 | and every event announced and delivered after that keeps it there |
| Hub.PermittedHolds | packages/realtime/src/hub.ts:70-89 | signing out drops exactly the channels the wallet may not see |
| Hub.IdentifyKeeps | packages/realtime/src/hub.ts:70-89 | proving or dropping a wallet keeps every connection guarded |
| Hub.SubscribeKeeps | packages/realtime/src/hub.ts:112-149 | so does subscribing |
| Hub.UnsubscribeKeeps | packages/realtime/src/hub.ts:151-166 | so does unsubscribing |
| Hub.PrivateStaysPrivate | packages/realtime/src/envelope.ts:65-73 | a private event reaches only the proven wallet it belongs to |
| Hub.ReachedIff | packages/realtime/src/hub.ts:45-217 | who an event reaches after any change: whoever it reached and was not ended by it, and whoever now follows and may |
| Hub.SpeaksFor | packages/realtime/src/hub.ts:45-103 | a connection speaks for the wallet it arrived with or last proved |
| Hub.FollowersAreReached | packages/realtime/src/hub.ts:45-217 | once followed, a channel reaches the connection through any changes that do not end it |
| GatewayServer.Gateway.constructor | apps/gateway/src/gateway.ts:47-54 | an empty hub that has sent nothing |
| GatewayServer.Gateway.Open | apps/gateway/src/gateway.ts:56-58 | the connection joins, and nothing is sent |
| GatewayServer.Gateway.Close | apps/gateway/src/gateway.ts:60-62 | the connection leaves, and nothing is sent |
| GatewayServer.Gateway.Identified | apps/gateway/src/gateway.ts:77-87 | the wallet changes, what it may not see is dropped, one answer is sent |
| GatewayServer.Gateway.Receive | apps/gateway/src/gateway.ts:89-160 | every frame is answered once, to its sender, within the subscription maximum |
| GatewayServer.Gateway.FanOut | apps/gateway/src/gateway.ts:175-193 | one copy of a frame to each recipient |
| GatewayServer.Gateway.Deliver | apps/gateway/src/gateway.ts:175-181 | a numbered envelope goes out as it is, and the hub notes its number |
| GatewayServer.Gateway.PublishEvent | apps/gateway/src/gateway.ts:183-193 | an event is numbered and goes once to each follower |
| GatewayServer.AnswerKeepsSound | apps/gateway/src/gateway.ts:89-160 | no frame makes a connection exceed the maximum or follow what it may not |
| GatewayServer.SubscriptionIs | apps/gateway/src/gateway.ts:89-160 | a subscription is answered with the last number published and reaches the connection from the next event on; exactly when it is refused, and with which code |
| GatewayServer.OwnersOnly | apps/gateway/src/gateway.ts:175-193 | whatever goes out on a private channel goes to its owner |
| BlockSearch.FirstFinalizedBlockAtOrAfter | packages/chain/src/finalized-block.ts:66-107 | the lowest block reaching the cutoff, null exactly when the finalized head does not, in logarithmically many reads |
| BlockSearch.Bisect | packages/chain/src/finalized-block.ts:94-106 | bisection ends at the first block, one read a halving |
| BlockSearch.FirstIsUnique | packages/chain/src/finalized-block.ts:57-66 | anyone reading the chain finds the same block |
| BlockSearch.BlockAtOrBefore | packages/chain/src/market-indexer.ts:736-770 | a block not after the target, within the tolerance or the last such, in logarithmically many reads; genesis when nothing is before |
| LogScan.ScanLogs | packages/chain/src/log-scan.ts:77-113 | every kept log of the range once in chain order, or the error it gives up on, in at most 2n - 1 requests |
| LogScan.KeptIff | packages/chain/src/log-scan.ts:100-113 | removed logs are dropped and every other is kept as often as it came |
| LogScan.CollectedInOrder | packages/chain/src/log-scan.ts:112-125 | sorting what was collected gives the chain's own order |
| LogScan.RangeInChainOrder | packages/chain/src/log-scan.ts:112-125 | that order is by block and then by place in it, and nothing removed is in it |
| LogScan.RangesJoin | packages/chain/src/log-scan.ts:86-111 | two halves of a range hold what the range holds |
| BlockClock.Clock.constructor | packages/chain/src/block-clock.ts:20-26 | no anchors yet |
| BlockClock.Clock.LowerBound | packages/chain/src/block-clock.ts:130-143 | the first anchor not below a block |
| BlockClock.Clock.Remember | packages/chain/src/block-clock.ts:39-45 | an anchor is added in place, and the times stay in step |
| BlockClock.Clock.Read | packages/chain/src/block-clock.ts:28-36 | a known time, or a read that is remembered |
| BlockClock.Clock.FindAround | packages/chain/src/block-clock.ts:120-128 | the nearest anchors on both sides |
| BlockClock.Clock.Interpolate | packages/chain/src/block-clock.ts:106-118 | it fails exactly for a missing anchor, and otherwise lies on the line |
| BlockClock.Clock.ForgetBefore | packages/chain/src/block-clock.ts:87-99 | recent anchors stay, and any recent block keeps an anchor below it |
| BlockClock.Clock.TimeOf | packages/chain/src/block-clock.ts:54-84 | one block's time is true, or between true times at most the spacing apart |
| BlockClock.Clock.TimesOf | packages/chain/src/block-clock.ts:54-84 | every wanted block gets such a time; it fails only for a spacing below one block |
| BlockClock.LineIsBetween | packages/chain/src/block-clock.ts:106-118 | a rounded estimate never leaves the times it comes from |
| BlockClock.LineIsProportional | packages/chain/src/block-clock.ts:106-118 | and lies within half a second of the exact proportion between them |
| DexPrice.MedianIsUnique | packages/market-data/src/dex-price.ts:132-161 | there is one weighted median |
| DexPrice.MedianIgnoresOrder | packages/market-data/src/dex-price.ts:139-161 | arrival order does not show |
| DexPrice.MedianResistsMinority | packages/market-data/src/dex-price.ts:132-161 | less than half the value cannot move the median out of the band of the rest |
| DexPrice.WeightedMedianPrice | packages/market-data/src/dex-price.ts:139-161 | the loop finds the median, and nothing exactly when no value was traded |
| DexPrice.PriceAt | packages/market-data/src/dex-price.ts:169-233 | price, trade count, value, health and note, case by case |
| DexPrice.TradePriceIs | packages/market-data/src/dex-price.ts:112-121 | a trade's price is its dollars over its tokens in whole units, rounded down |
| DexPrice.DollarsForTokens | packages/market-data/src/dex-price.ts:112-121 | whole dollars of six decimals for whole tokens of eighteen are priced at their quotient |
| DexPrice.DeviationIsNear | packages/market-data/src/dex-price.ts:123-130 | a deviation within a bound is a price less than the bound and one basis point away, on either side |
| DexPrice.TrustedIff | packages/market-data/src/dex-price.ts:176-181 | when a reference vouches, and for what |
| DexPrice.CountedIff | packages/market-data/src/dex-price.ts:183-191 | exactly the trades of the quiet time that moved tokens and enough dollars count, near a trusted reference if there is one |
| DexPrice.BasisIs | packages/market-data/src/dex-price.ts:193-239 | the window's trades make the price, or the newest instant's when it has none |
| DexPrice.PriceIsMedianDollar | packages/market-data/src/dex-price.ts:132-205 | half the dollars or more traded at or below the price, and less than half below any lower one |
| DexPrice.HealthIff | packages/market-data/src/dex-price.ts:213-232 | exactly when a price found is stale, healthy or carried |
| DexPrice.ReadingIgnoresOrder | packages/market-data/src/dex-price.ts:169-233 | the same trades in any order give the same reading |
| DexPrice.ReadingIgnoresOutsiders | packages/market-data/src/dex-price.ts:169-233 | trades from the future, too old or too small change no reading |
| DexPrice.HealthyIsGuarded | packages/market-data/src/dex-price.ts:169-233 | a healthy price had a fresh reference less than the bound and a basis point away on either side and enough trades, and lies in every band more than half the window's dollars traded in |
| TimeSeries.InsertByTime | packages/chain/src/market-indexer.ts:820-829 | the walk from the end puts an entry after everything not later |
| TimeSeries.PlacedAllIsSorted | packages/chain/src/market-indexer.ts:820-829 | arrivals in any order leave a list in time order, each once |
| TimeSeries.PlacedAllFilters | packages/chain/src/market-indexer.ts:820-870 | selecting from a list kept in order is keeping the selection in order |
| TimeSeries.LowerBound | packages/chain/src/market-indexer.ts:843-855 | the first entry not before an instant |
| TimeSeries.Between | packages/chain/src/market-indexer.ts:832-841 | two binary searches are a plain filter |
| TimeSeries.DropBefore | packages/chain/src/market-indexer.ts:862-870 | the splice is a plain filter |
| TimeSeries.VolumeBetween | packages/chain/src/market-indexer.ts:198-220 | walking the span or the entries, whichever is shorter, comes to the same sum |
| TimeSeries.RangeIsVolume | packages/chain/src/market-indexer.ts:198-220 | minute by minute and entry by entry agree |
| Tape.TapeSource.constructor | packages/market-data/src/market-tape.ts:214-266 | the timeline and stretches a tape builds |
| Tape.TapeSource.SortItems | packages/market-data/src/market-tape.ts:214-266 | a stable sort by instant |
| Tape.TapeSource.Reveal | packages/market-data/src/market-tape.ts:354-396 | one more item keeps every list what the revealed items make of it |
| Tape.TapeSource.SeeUntil | packages/market-data/src/market-tape.ts:296-312 | everything visible by the latest instant asked for is revealed |
| Tape.TapeSource.Trades | packages/market-data/src/market-tape.ts:314-316 | the distinct trades revealed inside a span, in time order |
| Tape.TapeSource.PonsActivity | packages/market-data/src/market-tape.ts:334-336 | likewise for Pons activity |
| Tape.TapeSource.Notional | packages/market-data/src/market-tape.ts:319-332 | a plain filter and sum over the distinct trades revealed |
| Tape.TapeSource.ReferenceFor | packages/market-data/src/market-tape.ts:338-340 | the last reference revealed |
| Tape.TapeSource.Records | packages/market-data/src/market-tape.ts:291-293 | true exactly when two coverage marks of the tape enclose the span with no restart between them |
| Tape.VisibleIsReadByThen | packages/market-data/src/market-tape.ts:296-312 | in time order exactly what was read by an instant is visible at it |
| Tape.ChainTimelineInOrder | packages/market-data/src/market-tape.ts:214-266 | by the chain's clock the timeline is in order and holds every item once |
| Tape.ChainShowsByOwnTime | packages/market-data/src/market-tape.ts:214-266 | by the chain's clock a trade is visible exactly from its own instant on, however late it was read |
| Tape.TradesShownOnce | packages/market-data/src/market-tape.ts:354-396 | an event shows once however often the tape holds it, and shows if the tape does |
| Tape.MinutesAreSums | packages/market-data/src/market-tape.ts:319-332 | volume by the minute is a filter and sum over trades |
| Tape.RecordedIff | packages/market-data/src/market-tape.ts:214-293 | a span counts as recorded exactly when two marks with no restart between enclose it |
| TapeRecorder.TapeRecorder.Snapshot | packages/market-data/src/tape-recorder.ts:52-97 | what a snapshot writes, ending in a coverage mark, and what it remembers |
| TapeRecorder.TapeRecorder.SnapshotTicker | packages/market-data/src/tape-recorder.ts:59-86 | a ticker's changed reference, then its new trades and activity |
| TapeRecorder.TapeRecorder.Remember | packages/market-data/src/tape-recorder.ts:99-106 | an event is written if not written before |
| TapeRecorder.WrittenExactlyOnce | packages/market-data/src/tape-recorder.ts:52-106 | over a recorder's life every event offered inside the overlap is written, none twice, if no event is redated by more than the overlap |
| TapeRecorder.LifeIsVisible | packages/market-data/src/market-tape.ts:214-266 | each snapshot becomes visible at its own mark, whatever tape came before |
| TapeReplay.RestartKeeps | packages/market-data/src/market-tape.ts:227-237 | a restart drops what was never marked covered, and nothing else |
| TapeReplay.TapeIsVisible | packages/market-data/src/market-tape.ts:214-266 | over any lives, restarts and crashes between them, the timeline is their snapshots, each at its mark |
| TapeReplay.ItemsInTime | packages/market-data/src/market-tape.ts:214-266 | on the wall clock that timeline is in time order |
| TapeReplay.OfferedIsNoted | packages/market-data/src/tape-recorder.ts:52-106 | what a snapshot is offered is on the tape by then |
| TapeReplay.LateEventsAreNoted | packages/market-data/src/tape-recorder.ts:52-106 | whatever a source holds of the five minutes before what was read is noted if it was not |
| TapeReplay.ReplayShows | packages/market-data/src/market-tape.ts:296-312 | a replay has shown at any instant exactly the distinct events read by then, as they were read |
| TapeReplay.ReadTradesAreShown | packages/market-data/src/market-tape.ts:354-396 | every trade of a ticker read by then is among those shown |
| MarketIndexer.RobinhoodMarketIndexer.constructor | packages/chain/src/market-indexer.ts:145-190 | an empty market |
| MarketIndexer.RobinhoodMarketIndexer.RecordSwap | packages/chain/src/market-indexer.ts:566-604 | a swap in a dollar pool is a trade and volume, in a Pons pool activity |
| MarketAmounts.DollarSwapsAreRead | packages/chain/src/market-indexer.ts:538-597 | from the tokens a pool was made with: a swap's trade has the dollars moved as its quote and the ticker's tokens moved as its tokens, and the minute grows by the dollars |
| MarketAmounts.PonsSwapsAreRead | packages/chain/src/market-indexer.ts:555-603 | a swap in a registered Pons pool counts what it moved of the quote token |
| MarketAmounts.CurveTradesAreRead | packages/chain/src/market-indexer.ts:605-622 | a trade on a known curve counts its quote for the trader, or through a router for the sender |
| MarketIndexer.RobinhoodMarketIndexer.Record | packages/chain/src/market-indexer.ts:527-624 | what each kind of log does |
| MarketIndexer.RobinhoodMarketIndexer.Apply | packages/chain/src/market-indexer.ts:480-507 | each log once, by its id |
| MarketIndexer.RobinhoodMarketIndexer.ResolveCurves | packages/chain/src/market-indexer.ts:636-671 | curves are looked up and the trades waiting for them recorded |
| MarketIndexer.RobinhoodMarketIndexer.Ask | packages/chain/src/market-indexer.ts:636-671 | a contract becomes a curve or not one, once |
| MarketIndexer.DropMinutes | packages/chain/src/market-indexer.ts:776-781 | deleting minutes entry by entry keeps exactly those from the oldest on |
| MarketIndexer.DropAll | packages/chain/src/market-indexer.ts:776-785 | cutting each sorted list at a binary search keeps exactly the entries since the cutoff |
| MarketIndexer.RobinhoodMarketIndexer.Prune | packages/chain/src/market-indexer.ts:772-785 | the loops over minutes and the cuts forget exactly what is older than each retention, and the lists stay in order |
| MarketIndexer.PruningStaysInTime | packages/chain/src/market-indexer.ts:772-785 | forgetting keeps every list in time order and every minute once |
| MarketIndexer.RobinhoodMarketIndexer.Poll | packages/chain/src/market-indexer.ts:343-372 | pools first, then trades, then curves, then forgetting; the lists stay in order |
| MarketIndexer.ApplyingStaysInTime | packages/chain/src/market-indexer.ts:480-624 | whatever logs are applied, every list stays in time order |
| MarketIndexer.RobinhoodMarketIndexer.Trades | packages/chain/src/market-indexer.ts:194-196 | a plain filter of the kept trades |
| MarketIndexer.RobinhoodMarketIndexer.Notional | packages/chain/src/market-indexer.ts:198-220 | the volume of the whole minutes of a span |
| MarketReading.ApplyCreates | packages/chain/src/market-indexer.ts:480-565 | the first half of a poll adds its pools and nothing else |
| MarketReading.ApplyOthers | packages/chain/src/market-indexer.ts:480-624 | the second half records each log, or leaves it waiting for its curve |
| MarketReading.ReadingAgainChangesNothing | packages/chain/src/market-indexer.ts:480-507 | logs applied before are applied again without effect |
| MarketReading.AskedAllTruthful | packages/chain/src/market-indexer.ts:636-671 | after asking, every curve is known as the factory has it |
| MarketReading.SplitByKnowledge | packages/chain/src/market-indexer.ts:527-671 | trades recorded at once and trades that waited are together all of them |
| MarketReading.Gathers | packages/chain/src/market-indexer.ts:343-372 | before forgetting, every list holds what was there and what the logs say |
| MarketReading.PollReads | packages/chain/src/market-indexer.ts:343-372 | a poll leaves a settled state that is a plain reading of its logs: pools, trades in time order, volume by minute, Pons trades |
| MarketReading.FreshIsSettled | packages/chain/src/market-indexer.ts:772-785 | an indexer that has read nothing is settled once pruned, so the polls that follow read their logs |
| MarketReading.EarlierTradesStay | packages/chain/src/market-indexer.ts:527-624 | pools created later do not change what earlier trades say |
| MarketPolls.ReadsJoin | packages/chain/src/market-indexer.ts:343-372 | reading logs and then more is reading them all |
| MarketPolls.PollsRead | packages/chain/src/market-indexer.ts:343-372 | any number of polls reads exactly their logs |
| MarketPolls.SplitsAgree | packages/chain/src/market-indexer.ts:343-372 | any split of a range into polls leaves the market one read would |
| MarketPolls.VolumeIsSum | packages/chain/src/market-indexer.ts:198-220 | within the retention volume is a plain filter and sum over the trades read |
| MarketSession.NextOpenAt | packages/market-data/src/market-session.ts:95-108 | the hourly probe is the search function |
| MarketSession.NextOpenWindow | packages/market-data/src/market-session.ts:119-142 | the nested loops are the search function |
| MarketSession.OpenFromIsFirst | packages/market-data/src/market-session.ts:87-108 | the first open instant at or after a time |
| MarketSession.NoOpeningIff | packages/market-data/src/market-session.ts:95-108 | it throws exactly when the market is closed at the start and through all the hours of sixty days |
| MarketSession.NoStartFitsIff | packages/market-data/src/market-session.ts:119-142 | for any duration, it throws exactly when none of the starts it tries stays open |
| MarketSession.NoWindowIff | packages/market-data/src/market-session.ts:119-142 | up to an hour and a millisecond, it throws exactly when the market stays open that long from no instant the attempts reach, and only after reaching sixty days of hours |
| MarketSession.NoHourLongWindowIff | packages/market-data/src/market-session.ts:119-142 | up to an hour, it throws exactly when the market is closed now and through the sixty days of hours after, or is open now, closes before a window from now ends and stays closed for sixty days and two hours |
| MarketSession.HoursSuffice | packages/market-data/src/market-session.ts:119-142 | probing the hours and the last instant is enough |
| MarketSession.WindowRuns | packages/market-data/src/market-session.ts:110-142 | an answer stays open throughout, and is the first for durations up to an hour and a millisecond |
| MarketSession.LongerWindowsCanBeMissed | packages/market-data/src/market-session.ts:110-142 | for any longer duration the first window can be passed over |
| Qualification.Qualify | packages/pons-indexer/src/qualification.ts:127-225 | senseless windows and policies are refused; otherwise the totals over the events in order |
| Qualification.ArrivalOrderIsIrrelevant | packages/pons-indexer/src/qualification.ts:143-153 | the same events in any order reach the same totals |
| Qualification.TakenInOrder | packages/pons-indexer/src/qualification.ts:143-153 | events are taken by block, and in a block by their id |
| Qualification.EverythingAccountedFor | packages/pons-indexer/src/qualification.ts:166-225 | included and excluded are every event of the ticker, in number and amount |
| Qualification.LoopsAreCapped | packages/pons-indexer/src/qualification.ts:202-212 | of each wallet's identical amounts exactly the allowed number counts |
| Qualification.QualifiedInClosedForm | packages/pons-indexer/src/qualification.ts:172-225 | the qualified count and amount are, over all wallets and amounts, the repeats up to the allowance |
| Qualification.EachOnItsGround | packages/pons-indexer/src/qualification.ts:155-225 | every exclusion is counted under its own ground, and the active wallets are those with an event that counts |

## Left out

- Frontline and intensity values, clock offsets and other floating-point numbers
  for display.
- Floating point where the arithmetic is not about rounding: token counts are
  scaled by the window length and interpolation is exact before its rounding, so
  the rounding of doubles is not captured.
- Round.CreatedRound: the pairings, the confidence labels and the round's own id are
  given, and battle ids are built from that id, where the source schedules the
  pairings from a derived seed, computes the labels and builds ids from the round's
  index; `ScheduleRound` is where pairings are scheduled.
- RateLimit.MemoryRateLimit.Charge: the scaled tokens of a bucket are in the unit of
  the rule now applied, where the source keeps plain requests, so one key is to be
  charged under one window length; different keys may have different ones.
- Prng.DeterministicPrng.NextBelow: a bound above 2^32, which the source accepts and
  then never returns from, is excluded; `SomeWordIsAcceptedIff` says why.
- Confidence bands, alerts, calibration reports and profiles: finite tables and
  sums.
- Recordings and tape entries as JSON text, and the checks that refuse malformed
  ones; the encoding of evidence is modelled character by character.
- The Genesis flow, the vault adapter and the lease as classes: their steps
  interleave at every `await`, so they are step functions on one world. Aliasing
  between their objects is not captured.
- The amount of a reservation, wallet eligibility beyond a yes or no, and the
  Postgres repository; the in-memory repository stands for the store.
- A second Genesis process beside the first: attempts share one in-flight table.
- A holder id used twice for the lease.
- The Redis transport, fail-over and clock drift between server and holders: the
  model has one clock, and an exchange takes at most a stated delay.
- Sockets, frames as text, and backpressure; a frame sent is in the multiset of
  frames sent.
- The clearing of `seen`, `senders` and `notCurves` under memory pressure, after
  which an event read again would count again
  (packages/chain/src/market-indexer.ts:795-803).
- Which contract emitted a log and whether it decodes: such a log is `Foreign`.
  Transaction senders and `TokenLaunched` logs are fixed functions of the chain.
- Throttling, backoff, the refresh of reference prices, the backfill at start and
  the growth of the head while a range is read.
- Time zones, holidays and daylight saving: a calendar is any function of the
  hour, which is what the source's own comment reduces it to.
- MarketSession.NoStartFitsIff: beyond an hour and a millisecond the condition is on the
  starts the search tries, which it may choose badly (`LongerWindowsCanBeMissed`).
- `comparableSpans`, `tradingDayOf` and the parsing of calendars.
- Per-ticker lists that exist before anything is in them: a missing list is an
  empty one.
- MarketIndexer.RobinhoodMarketIndexer.Prune: the volume of a minute no longer kept is forgotten
  here too, so sums reaching before the retention say nothing.
