# Verified model of the cap-table and tax-filing cores

This project models, and proves properties of, the parts of the repository where money or shares are computed or put on a wire:

- the FIRE fixed-width file writer of IRS Publication 1220 (`pkg/tax/fire/marshal.go`): `GoBasics`, `Decimal`, `Layout`, `RecordBuf` and the `Fire*` files. The writer is modelled as it runs: a 750-byte array overwritten by column, renderers over it, and a file object whose counters are filled while it is marshalled. A reader that knows only the column layout decodes the result, and `FireColumns` says by number which columns hold what;
- the liquidation waterfall (`pkg/waterfall/engine.go`): the `Waterfall*` files. The four tiers run over one pot, one ledger and four tables; each is proved equal to an order-free closed form, and the theorems are about the closed forms; `WaterfallFigures` states every payout and table entry in the classes' own investments, multiples, caps, shares and ratios;
- the IRIS retry and re-authentication loop (`pkg/tax/iris/client.go`): `IrisClient`, a client object over arbitrary streams of replies, logins, cancelled waits, clock readings and dice;
- the base64 encoder (`pkg/bluesky/efd.go`): `Base64`, against the bit-string definition of section 4 of RFC 4648 and a strict decoder;
- pro-forma rounds and exits (`pkg/scenario/service.go`): `Scenario`;
- SAFE and note conversion (`pkg/conversion/service.go`): `Conversion`;
- the form builders that feed the FIRE writer (`pkg/tax/submit.go`): `TaxForms`;
- per-state routing (`pkg/tax/cfsf`): `StateRouting`;
- share issuance and the company summary (`pkg/captable/service.go`): `CapTable`.

`float64` is modelled by `real`, `int64` by a bounded type whose sums wrap explicitly, and strings by ASCII text. Map iteration picks keys in an arbitrary order. Clocks, networks, random numbers, storage faults and context cancellation are inputs. Where a source loop is long, its body is a method of its own. Slices and values that the source copies are values here; the 750-byte record, the encoder's buffers, the normalised class list, the FIRE file, the IRIS client and the repository are mutable.

Several intended properties turned out to hold only under a condition. Each is stated as an exact equivalence:

- control totals: the C record equals the sum of the B records exactly when no payee's amount opposes another's in sign (signs are dropped), or, for a code the payer does not list, when the total is zero (`FireTotals.ControlTotals`; +100 and -100 show 0 against 200 in `FireTotals.OpposedAmountsExample`);
- amount codes H and I share columns 247-270 with the foreign mark and the name line, which are written later. Exactly when each amount survives: `FirePayees.AmountHSurvives`, `FirePayees.AmountISurvives`, `FirePayees.NamedPayeeLosesHI`, with `FirePayees.NamedPayeeExample`. The mark and the name line in turn read back exactly when a listed H finds the mark set and a name of at least 11 characters, and a listed I a name of at least 23 (`FirePayees.NameSurvivesIff`, with `FirePayees.NameLostExample`);
- a B record is the same for every walk of its form-specific map exactly when the written entries hold the same character wherever they share a column that the state block does not overwrite (`FireLayouts.WalksAgreeIff`, with `FireLayouts.WalkOrderExample`);
- the retry delay is min(cap, base x 2^attempt) exactly when the int64 shift has not wrapped to a positive delay below the cap (`IrisClient.BackoffIsCappedExponentialIff`, with `IrisClient.ShortBackoffExample`); the default durations never do (`IrisClient.DefaultBackoff`). The random draw panics exactly under a negative cap, or under a cap of the largest int64 when the shifted delay is not positive or is that very number (`IrisClient.DrawPanicsIff`, with `IrisClient.PanicExamples`);
- the waterfall pays out more than the proceeds exactly when what the keepers of a preference hold above their pool shares exceeds the common stock's part of the pool (`WaterfallTheorems.OverdistributesIff`, with `WaterfallTheorems.OverdrawnExample`);
- a conversion's named term is the one that set the price, except when a cap above the round price stands alone (`Conversion.TermIsHonestIff`, with `Conversion.MisnamedTermExample`); a discount of 100 or more is ignored, so raising a discount can raise the price (`Conversion.RaisingDiscountIff`) and cost shares (`Conversion.DiscountOfHundredCostsShares`);
- the two dollars-to-cents functions agree exactly above minus half a cent (`StateRouting.RoundingsAgreeIff`, with `StateRouting.NegativeCentExample`);
- counters and entries stay in step over a call exactly when, having written its entry, it stores the counters and neither of them wraps (`CapTable.InStepIff`), and over a run exactly when every call does (`CapTable.RunInStepIff`); an accepted issuance stays within the authorized shares exactly when the counter does not wrap (`CapTable.AuthorizedUnlessWrapped`). `CapTable.WrappedIssueExample` breaks both without any failure.

Documentation and code differ in three places, and the model follows the code. The comment above `amountColRange` gives each of the 18 amount codes columns of its own, but those of H and I are overwritten. The comment above `marshalPayee` says unused amount positions are zero-padded; they stay blank. The comment above tier 4 says common stock receives the remainder, but without common shares, or after an overdrawn tier 3, the remainder stays in the pot, and it can be negative.

`dafny verify dfyconfig.toml` verifies the whole project.

## Model

| member | source | states |
|---|---|---|
| Decimal.PrintedNumberReadsBack | pkg/tax/fire/marshal.go:86-113 | an integer printed in w digit columns is w digits whose value is its magnitude modulo 10^w, whatever its sign |
| Decimal.PrintedExample | pkg/tax/fire/marshal.go:86-113 | digits stand most significant first, a sign is dropped, and what does not fit is cut on the left |
| Decimal.DigitsKept | pkg/tax/fire/marshal.go:140-148 | what is kept of a string is exactly its digits, in their order |
| RecordBuffer.StripNonDigits | pkg/tax/fire/marshal.go:140-148 | the loop keeps exactly the digits, in order |
| RecordBuffer.RecordBuf.constructor | pkg/tax/fire/marshal.go:32-38 | a new record is 750 blanks with nothing written |
| RecordBuffer.RecordBuf.PutChar | pkg/tax/fire/marshal.go:43-49 | the buffer becomes the old writes plus one character; a column outside the record writes nothing |
| RecordBuffer.RecordBuf.PutBoolMark | pkg/tax/fire/marshal.go:116-129 | a mark is written only when the flag is set |
| RecordBuffer.RecordBuf.PutString | pkg/tax/fire/marshal.go:54-65 | the buffer becomes the old writes plus the left-justified, truncated text; a bad range writes nothing |
| RecordBuffer.RecordBuf.PutUpper | pkg/tax/fire/marshal.go:68-70 | the same with the text upper-cased |
| RecordBuffer.RecordBuf.PutAlnum | pkg/tax/fire/marshal.go:74-82 | the same with only letters and digits kept, upper-cased |
| RecordBuffer.UpperIs | pkg/tax/fire/marshal.go:68-70 | letters a to z are moved up by 32, and nothing else changes |
| RecordBuffer.AlnumKept | pkg/tax/fire/marshal.go:74-82 | what is kept of a string is exactly its letters and digits, in their order |
| RecordBuffer.RecordBuf.PutDigits | pkg/tax/fire/marshal.go:86-102 | the buffer becomes the old writes plus the right-justified, zero-filled low digits, and no byte outside the range changes |
| RecordBuffer.RecordBuf.PutIntZeroPad | pkg/tax/fire/marshal.go:105-107 | the same for an integer |
| RecordBuffer.RecordBuf.PutCents | pkg/tax/fire/marshal.go:111-113 | the same for an amount in cents |
| RecordBuffer.RecordBuf.Bytes | pkg/tax/fire/marshal.go:132-137 | the emitted record is the buffer followed by CR-LF |
| Layouts.FieldReadsBack | pkg/tax/fire/marshal.go:43-113 | in a layout whose fields agree wherever they meet, every field's columns read back as its text, whatever is written before or after it |
| Layouts.PaintIgnoresOrder | pkg/tax/fire/marshal.go:43-113 | two well-laid layouts with the same fields leave the same bytes, in whatever order they are written |
| Layouts.NumberReadsBack | pkg/tax/fire/marshal.go:105-113 | a numeric field of a well-laid record decodes to its magnitude modulo 10 to its width |
| Layouts.TextReadsBack | pkg/tax/fire/marshal.go:54-65 | a text field of a well-laid record reads back left-justified and blank-filled, cut at its width |
| Layouts.UncoveredColumn | pkg/tax/fire/marshal.go:43-113 | a column no field covers stays blank |
| FireRecords.AmountColRange | pkg/tax/fire/marshal.go:155-168 | the k-th of the eighteen codes has columns 55 + 12k to 66 + 12k, and no other character has any |
| FireRecords.AmountTotalsRange | pkg/tax/fire/marshal.go:174-187 | the k-th code has the 18 columns from the base column + 18k on, and no other character has any |
| FireRecords.CodesInOrder | pkg/tax/fire/marshal.go:155-187 | the codes are 1 to 9 and A to I, in this order, and nothing else |
| FireLayouts.BNamedIsWellLaid | pkg/tax/fire/marshal.go:400-432 | the named B fields do not overlap when the codes are 1-9 and A-G |
| FireLayouts.CIsWellLaid | pkg/tax/fire/marshal.go:452-467 | the C fields do not overlap, for all 18 codes |
| FireLayouts.KIsWellLaid | pkg/tax/fire/marshal.go:470-487 | the K fields do not overlap, for all 18 codes |
| FireLayouts.TotalsIgnoreOrder | pkg/tax/fire/marshal.go:452-487 | C and K records do not depend on the order in which the totals map is walked |
| FireLayouts.BIgnoresFormOrder | pkg/tax/fire/marshal.go:433-439 | a B record whose form-specific entries agree in every shared column outside the state block does not depend on the order in which they are written |
| FireLayouts.WalksAgreeIff | pkg/tax/fire/marshal.go:433-446 | every walk of the form-specific map gives the same B record exactly when its written entries agree in every shared column that the state block does not overwrite |
| FireLayouts.WalkOrderExample | pkg/tax/fire/marshal.go:433-439 | entries AB at column 546 and C at column 547 give two different records |
| FireRender.MarshalTransmitter | pkg/tax/fire/marshal.go:317-363 | the renderer emits exactly the T layout |
| FireRender.MarshalPayer | pkg/tax/fire/marshal.go:366-397 | the renderer emits exactly the A layout, and an error for a missing form code |
| FireRender.MarshalPayee | pkg/tax/fire/marshal.go:400-449 | the renderer emits exactly the B layout, the form-specific entries in the order the map yields them |
| FireRender.MarshalEndOfPayer | pkg/tax/fire/marshal.go:452-467 | the renderer emits the C layout, whatever the order of the totals map |
| FireRender.MarshalStateTotals | pkg/tax/fire/marshal.go:470-487 | the renderer emits the K layout, whatever the order of the totals map |
| FireRender.MarshalEndOfFile | pkg/tax/fire/marshal.go:490-500 | the renderer emits exactly the F layout |
| FireReading.TransmitterReadsBack | pkg/tax/fire/marshal.go:317-363 | every field of a T record reads back from its columns |
| FireReading.PayerReadsBack | pkg/tax/fire/marshal.go:366-397 | every field of an A record reads back from its columns |
| FireReading.EndOfPayerReadsBack | pkg/tax/fire/marshal.go:452-467 | a C record shows its count, its number and every code's total, or blanks for an absent code |
| FireReading.StateTotalsReadBack | pkg/tax/fire/marshal.go:470-487 | a K record shows its count, its state fields and every code's total, or blanks for an absent code |
| FireReading.EndOfFileReadsBack | pkg/tax/fire/marshal.go:490-500 | every field of an F record reads back from its columns |
| FirePayees.PayeeReadsBack | pkg/tax/fire/marshal.go:400-449 | every named field of a B record reads back under any codes, the foreign mark and the name line exactly when no digit of a listed code H or I shows through |
| FirePayees.NameSurvivesIff | pkg/tax/fire/marshal.go:411-424 | the mark and the name line read back exactly when a listed H finds the mark set and 11 characters of name, and a listed I 23 characters |
| FirePayees.NameLostExample | pkg/tax/fire/marshal.go:411-424 | with code H listed, a payee named Ann has a digit in her name line, whatever her amounts |
| FirePayees.AmountReadsBack | pkg/tax/fire/marshal.go:411-419 | a listed code of 1-9 or A-G shows its amount and an unlisted one shows blanks, whatever else the record holds; the columns are those of FireColumns.AmountStandsAt |
| FirePayees.StateInfoReadsBack | pkg/tax/fire/marshal.go:440-446 | the state block reads back when there is one, and is blank otherwise |
| FirePayees.AmountHSurvives | pkg/tax/fire/marshal.go:155-168 | code H shows its amount exactly when the later mark and name agree with its digits |
| FirePayees.AmountISurvives | pkg/tax/fire/marshal.go:155-168 | code I shows its amount exactly when the name's later characters agree with its digits |
| FirePayees.NamedPayeeLosesHI | pkg/tax/fire/marshal.go:421-424 | for a name without digits: H survives exactly for an empty name (and no conflicting mark), I exactly for at most 11 characters |
| FirePayees.NamedPayeeExample | pkg/tax/fire/marshal.go:421-424 | a named payee's amount at code H is not shown |
| FireColumns.AmountStandsAt | pkg/tax/fire/marshal.go:155-168 | for every k below 16 the k-th code's amount stands in columns 55 + 12k to 66 + 12k of a B record, and blanks if it is not listed |
| FireColumns.LastCodesStandAt | pkg/tax/fire/marshal.go:155-168 | codes H and I have columns 247-258 and 259-270 |
| FireColumns.EndOfPayerTotals | pkg/tax/fire/marshal.go:452-467 | for every k below 18 the k-th code's total stands in columns 16 + 18k to 33 + 18k of a C record, and blanks if there is none |
| FireColumns.StateTotalsAt | pkg/tax/fire/marshal.go:470-487 | the same for a K record |
| FireColumns.FormEntryReadsBack | pkg/tax/fire/marshal.go:433-439 | a form-specific entry kept clear of the other fields reads back from its own columns |
| FireColumns.StateBlock | pkg/tax/fire/marshal.go:440-446 | any one of the four state fields that is set brings the whole block, and blanks stand there only if none is |
| FireFiles.AddToTotals | pkg/tax/fire/marshal.go:248-250 | one payee's amounts are added to the totals code by code, whatever the order of its map |
| FireFiles.MarshalPayees | pkg/tax/fire/marshal.go:234-252 | the payees are numbered on, dated, rendered in order and totalled, each record with its form-specific entries in some walk of its map, and the same in any walk when they agree where they overlap |
| FireFiles.MarshalGroup | pkg/tax/fire/marshal.go:215-268 | one group's bytes and filled counters, or the error that stops it |
| FireFiles.MarshalGroups | pkg/tax/fire/marshal.go:215-268 | all groups, stopping at the first without a form code with the earlier ones already filled |
| FireFiles.MarshalStates | pkg/tax/fire/marshal.go:270-281 | the K records and their numbers |
| FireFiles.Marshal | pkg/tax/fire/marshal.go:192-314 | the method returns the bytes of the filled file, every record in order and only the first one re-rendered; the walks of the form-specific maps are the only freedom, and none when the entries agree where they overlap; the file is left filled, and an error leaves the state reached |
| FireColumns.StoppedState | pkg/tax/fire/marshal.go:215-230 | after an error the groups before the payer without a form code are filled as in a whole file, that payer is dated and numbered, and nothing else is touched |
| FireColumns.AgreeingOutput | pkg/tax/fire/marshal.go:192-314 | when the entries agree where they overlap, the only bytes Marshal may return are the file's records in order |
| FireWire.FileGrammar | pkg/tax/fire/marshal.go:189-314 | the bytes are whole 752-byte records in the order T (A B* C)* K* F, with the right number of each |
| FireWire.FileNumbering | pkg/tax/fire/marshal.go:198-285 | record i of a freshly marshalled file carries sequence number i |
| FireWire.FileCounts | pkg/tax/fire/marshal.go:283-297 | the T and F records declare the numbers of A and B records actually present |
| FireColumns.TransmitterOnWire | pkg/tax/fire/marshal.go:198-297 | the T record shows its year, and its own number and payee count, or one and the number of payees |
| FireColumns.PayerOnWire | pkg/tax/fire/marshal.go:215-228 | an A record shows its own year and number, or the transmitter's year and its place in the file |
| FireColumns.PayeeYearOnWire | pkg/tax/fire/marshal.go:234-247 | a B record shows its own year and number, or its payer's year and its place in the file |
| FireColumns.EndOfPayerCountOnWire | pkg/tax/fire/marshal.go:253-267 | a C record shows its own count, number and totals, or the number of its payees and its place in the file |
| FireColumns.StateNumberOnWire | pkg/tax/fire/marshal.go:270-281 | a K record shows its own number, or its place in the file |
| FireColumns.EndOfFileOnWire | pkg/tax/fire/marshal.go:283-312 | the F record shows its own counts and number, or the numbers of payers and payees and its place |
| FireWire.FillTwice | pkg/tax/fire/marshal.go:192-314 | filling is idempotent, so marshalling again gives the same bytes |
| FireWire.ClearGroupsAgree | pkg/tax/fire/marshal.go:433-439 | entries in columns of their own, as reading a record back asks for, leave the map's walk no influence on the file's bytes |
| FireTotals.TotalsAreWrappedSums | pkg/tax/fire/marshal.go:233-250 | a group's int64 totals are the true sums, wrapped |
| FireTotals.ControlTotals | pkg/tax/fire/marshal.go:233-267 | what the C record shows, what the B records show, and exactly when they agree |
| FireTotals.OpposedAmountsExample | pkg/tax/fire/marshal.go:86-102 | +100 and -100 cents at a listed code: the C record shows 0, the B records 200 |
| FireTotals.NonNegativeTotalsBalance | pkg/tax/fire/marshal.go:233-267 | for non-negative amounts at a listed code, the decoded C field is the sum of the decoded B fields and the true total |
| FireTotals.EndOfPayerCountsPayees | pkg/tax/fire/marshal.go:257-267 | the C record declares the number of B records before it |
| WaterfallLists.SplitClasses | pkg/waterfall/engine.go:30-39 | preferred and common classes, in listing order |
| WaterfallLists.SortBySeniority | pkg/waterfall/engine.go:41-44 | any descending rearrangement: the sort need not be stable |
| WaterfallLists.GroupBySeniority | pkg/waterfall/engine.go:228-252 | the groups concatenate to the list, each of one seniority, strictly descending |
| WaterfallLists.FilterClasses | pkg/waterfall/engine.go:255-274 | the participating and the non-participating classes |
| WaterfallEngine.PayRank | pkg/waterfall/engine.go:59-92 | one rank is paid its closed form and the pot loses its claims, down to zero |
| WaterfallEngine.PayPreferences | pkg/waterfall/engine.go:52-93 | tier 1 group by group equals the closed form for every class, and leaves max(0, proceeds - preferences) |
| WaterfallEngine.TotalAsConvertedShares | pkg/waterfall/engine.go:286-292 | common shares plus converted preferred shares |
| WaterfallEngine.ParticipationPayout | pkg/waterfall/engine.go:104-120 | the pro-rata payout limited to the room under the cap |
| WaterfallEngine.SubtractParticipation | pkg/waterfall/engine.go:131-133 | the map walk takes out the sum of the tier 2 payouts, in whatever order |
| WaterfallEngine.Participate | pkg/waterfall/engine.go:95-135 | tier 2 equals its closed form in table, ledger and pot |
| WaterfallEngine.ConversionPool | pkg/waterfall/engine.go:155-159 | the pot plus every non-participating preference |
| WaterfallEngine.DecideConversion | pkg/waterfall/engine.go:168-193 | one class's decision: the zeroed tier 1 entry, the conversion entry, the ledger and the pot |
| WaterfallEngine.DecideConversions | pkg/waterfall/engine.go:152-195 | all decisions, each independent of the ones before it |
| WaterfallEngine.Convert | pkg/waterfall/engine.go:147-196 | tier 3 equals its closed form in both tables, ledger and pot, and does nothing on an empty pot |
| WaterfallEngine.ShareCommon | pkg/waterfall/engine.go:198-220 | tier 4 equals its closed form, and leaves the pot alone without common shares |
| WaterfallEngine.RunTiers | pkg/waterfall/engine.go:30-224 | the four tables, remainder and cumulative ledger of a whole run |
| WaterfallEngine.Calculate | pkg/waterfall/engine.go:15-225 | errors exactly for negative proceeds or no classes; otherwise the ratios are normalised in place and the result is the waterfall of the normalised classes |
| WaterfallTiers.OrderDoesNotMatter | pkg/waterfall/engine.go:33-44 | permuting the classes changes no class's payout in any tier |
| WaterfallTheorems.SameResult | pkg/waterfall/engine.go:33-44 | two listings of the same classes return equal results, table for table |
| WaterfallFigures.PreferenceInFigures | pkg/waterfall/engine.go:58-92 | a class gets investment x multiple if the proceeds reach that far, nothing above its rank's reach, and its part by claim in the rank where they run out |
| WaterfallFigures.LeftoverInFigures | pkg/waterfall/engine.go:58-92 | tier 1 leaves what the proceeds exceed the sum of investment x multiple by |
| WaterfallFigures.UncappedParticipant | pkg/waterfall/engine.go:101-120 | a participating class with a cap of zero or less takes its part of the leftover by shares x ratio |
| WaterfallFigures.CappedParticipant | pkg/waterfall/engine.go:109-120 | a capped one ends with the smaller of its uncapped total and the larger of investment x cap and its preference |
| WaterfallFigures.OthersDoNotParticipate | pkg/waterfall/engine.go:103 | no other class is paid in tier 2 |
| WaterfallFigures.ConversionInFigures | pkg/waterfall/engine.go:152-190 | a non-participating class's pool share is its part of the pool by shares x ratio; it converts exactly if something is left and the share exceeds its preference |
| WaterfallFigures.PoolInFigures | pkg/waterfall/engine.go:155-159 | the pool is what tier 2 leaves and the non-participating classes' preferences |
| WaterfallFigures.CommonInFigures | pkg/waterfall/engine.go:204-217 | common stock takes its part of a positive pot by shares |
| WaterfallFigures.RemainderInFigures | pkg/waterfall/engine.go:204-223 | the remainder is the pot, or the negative part of it if there is common stock |
| WaterfallFigures.Table1 | pkg/waterfall/engine.go:66-90 | the tier 1 table lists exactly the preferred classes, at their preference or, if they convert, at zero, with payout per share and per investment |
| WaterfallFigures.Table2 | pkg/waterfall/engine.go:101-133 | the tier 2 table lists exactly the participating classes if anything is left, with the multiple of what they hold |
| WaterfallFigures.Table3 | pkg/waterfall/engine.go:168-194 | the tier 3 table lists exactly the converting classes |
| WaterfallFigures.Table4 | pkg/waterfall/engine.go:204-219 | the tier 4 table lists exactly the common stock if anything is left for it |
| WaterfallFigures.ResultInFigures | pkg/waterfall/engine.go:49-224 | the four tables' names; what is distributed and the remainder are the proceeds |
| WaterfallTheorems.RankIsPaid | pkg/waterfall/engine.go:58-92 | a rank is paid min(its claims, what its seniors leave) |
| WaterfallTheorems.PaidDownTo | pkg/waterfall/engine.go:58-92 | down to any rank, the classes hold min(proceeds, their claims) |
| WaterfallTheorems.Tier1Conserves | pkg/waterfall/engine.go:58-92 | what tier 1 pays and what it leaves are the proceeds |
| WaterfallTheorems.JuniorWaits | pkg/waterfall/engine.go:58-92 | no class is paid unless every senior class is paid in full |
| WaterfallTheorems.RankSharesEvenly | pkg/waterfall/engine.go:77-90 | inside a rank payouts are proportional to claims and never above them |
| WaterfallTheorems.PotSurvivesTier2 | pkg/waterfall/engine.go:101-134 | participation never overdraws the pot |
| WaterfallTheorems.CapHolds | pkg/waterfall/engine.go:109-120 | a capped participant holds at most its cap, or exactly what tier 1 had paid it |
| WaterfallTheorems.MoreProceedsNeverHurt | pkg/waterfall/engine.go:58-134 | raising the proceeds never lowers a preferred class's total through tiers 1 and 2 |
| WaterfallTheorems.Tier3Account | pkg/waterfall/engine.go:152-195 | tier 3 leaves the common part of the pool less the keepers' excess, exactly |
| WaterfallTheorems.Tier3Solvent | pkg/waterfall/engine.go:152-195 | the pot stays non-negative exactly when the common part covers the keepers' excess |
| WaterfallTheorems.AllConvert | pkg/waterfall/engine.go:152-195 | if every class converts, exactly the common part is left |
| WaterfallTheorems.OverdrawnNeedsBoth | pkg/waterfall/engine.go:152-195 | an overdrawn pot has both a converter and a keeper |
| WaterfallTheorems.OneConvertibleIsSolvent | pkg/waterfall/engine.go:152-195 | with at most one non-participating class the pot never goes negative |
| WaterfallTheorems.BetterOfTwo | pkg/waterfall/engine.go:139-146 | a non-participating class ends with the better of its preference and its pool share |
| WaterfallTheorems.TablesMatchLedger | pkg/waterfall/engine.go:49-220 | a class's payouts over the four tables add up to its ledger value |
| WaterfallTheorems.PayoutsConserve | pkg/waterfall/engine.go:46-224 | all payouts and the remainder are the proceeds |
| WaterfallTheorems.WaterfallConserves | pkg/waterfall/engine.go:46-224 | the four returned tables and the remainder add up to the proceeds, zeroed entries included |
| WaterfallTheorems.OverdistributesIff | pkg/waterfall/engine.go:222-223 | the reported total exceeds the proceeds exactly when the keepers' excess beats the common part |
| WaterfallTheorems.OverdrawnExample | pkg/waterfall/engine.go:152-223 | two classes and proceeds of 61 that pay out 104.9 |
| WaterfallMonotone.After2Monotone | pkg/waterfall/engine.go:58-134 | what the first two tiers leave in the pot never shrinks as the proceeds grow |
| WaterfallMonotone.PoolShareMonotone | pkg/waterfall/engine.go:152-170 | no class's share of the conversion pool falls as the proceeds grow |
| WaterfallMonotone.After3Monotone | pkg/waterfall/engine.go:152-195 | once tier 3 runs, what it leaves in the pot never shrinks as the proceeds grow, whichever classes change sides |
| WaterfallMonotone.MoreProceedsNeverHurtAnyone | pkg/waterfall/engine.go:46-224 | raising the proceeds never lowers what any class, common stock included, is paid over the four tiers |
| IrisClient.Client.SetJWT | pkg/tax/iris/client.go:323-326 | the token and expiry are taken as given |
| IrisClient.Client.Authenticate | pkg/tax/iris/client.go:253-318 | every outcome of a login; a refusal leaves the held token and expiry alone |
| IrisClient.Client.EnsureAuthenticated | pkg/tax/iris/client.go:511-529 | when a token is kept, fetched or dropped, how many logins are made and how they fail, and that success means a token is held |
| IrisClient.Client.SleepBackoff | pkg/tax/iris/client.go:624-646 | one wait of the specified length or the cancellation, or no wait when the draw panics |
| IrisClient.DrawPanicsIff | pkg/tax/iris/client.go:632-636 | the draw panics exactly under a negative cap, or under the largest int64 when the shifted delay is not positive or is the largest int64 |
| IrisClient.PanicExamples | pkg/tax/iris/client.go:632-636 | with the default base, a cap of -1 ns panics at attempt 0 and a cap of the largest int64 at attempt 64 |
| IrisClient.WaitPanicsIff | pkg/tax/iris/client.go:624-637 | the same for a wait, which draws only without a Retry-After |
| IrisClient.FullJitter | pkg/tax/iris/client.go:636 | the draw can yield every wait from zero to the bound, and no other |
| IrisClient.BackoffIsBounded | pkg/tax/iris/client.go:632-635 | for any durations and attempt the bound is within the cap, positive if the cap is, and never above the doubled delay |
| IrisClient.BackoffIsCappedExponentialIff | pkg/tax/iris/client.go:627-636 | for any positive base the bound is min(cap, base x 2^attempt) exactly when the int64 shift has not wrapped to a positive delay below the cap |
| IrisClient.ShortBackoffExample | pkg/tax/iris/client.go:632-635 | a base of 2^34 + 1 ns at attempt 30 is bounded by about 1.07 s under a cap of 30 s |
| IrisClient.BackoffNeverWrapsShort | pkg/tax/iris/client.go:632-635 | a base of 2^z times a number of at most r bits never wraps short under a cap of at most 2^(64 - r) |
| IrisClient.DefaultBackoff | pkg/tax/iris/client.go:186-197 | the default durations give min(30 s, 0.5 s x 2^attempt) at every attempt and never panic |
| IrisClient.WaitIsBounded | pkg/tax/iris/client.go:624-637 | when the draw does not panic, Retry-After is honoured exactly, otherwise the wait is within the configured cap and the doubled delay |
| IrisClient.Client.DoOnce | pkg/tax/iris/client.go:542-565 | one request, with the token held at that moment |
| IrisClient.Client.Turn | pkg/tax/iris/client.go:567-610 | one turn of the loop: what is sent, logged in, waited and decided |
| IrisClient.Client.DoRequest | pkg/tax/iris/client.go:531-622 | exactly the requests up to the first decisive reply, refused login or panicking or cancelled wait, or the budget; the latest token each time, one login per answerable 401, the waits, and the one answer the call can return |
| IrisClient.VerdictEnds | pkg/tax/iris/client.go:567-622 | a turn returns, stops or retries exactly where the call ends or goes on |
| IrisClient.EndsHere | pkg/tax/iris/client.go:567-622 | a call ends at the first reply that ends it, or at the end of its budget |
| IrisClient.EveryTurnButTheLastContinues | pkg/tax/iris/client.go:573-600 | before the last turn no reply is decisive, every 401 was answered by a granted login and no wait panicked or was cancelled |
| IrisClient.ShortCallsAreStopped | pkg/tax/iris/client.go:573-610 | a call short of its budget ended in a decisive reply, a refused login or a panicking or cancelled wait, and returns that |
| IrisClient.FirstDecisiveWins | pkg/tax/iris/client.go:567-622 | unless a wait panics or is cancelled or a login refused, the answer is the first decisive reply's, or the last reply's if there is none |
| IrisClient.RateLimitedMeansLast429 | pkg/tax/iris/client.go:612-621 | the rate-limit error is returned exactly when the budget ran out on a 429 |
| IrisClient.SuccessIsDecisive | pkg/tax/iris/client.go:602-609 | an answer without error is exactly a last reply below 400 |
| IrisClient.RetriedStatuses | pkg/tax/iris/client.go:591-609 | a call goes on after a status exactly if attempts are left, the status is 429, 500 or 502 and above, and the wait neither panics nor is cancelled |
| IrisClient.RetriedErrors | pkg/tax/iris/client.go:568-577 | a call goes on after a transport error exactly if attempts are left and the wait neither panics nor is cancelled |
| IrisClient.RetriedLogins | pkg/tax/iris/client.go:581-590 | a call goes on after a 401 it has credentials for exactly if attempts are left and a login under a transmitter code yields a token below 400 |
| IrisClient.LastStatusDecides | pkg/tax/iris/client.go:602-622 | what is returned for the last status: the reply below 400, an error with its body at a status that is not retried, and the error of a retried status when the budget ends |
| IrisClient.LastErrorDecides | pkg/tax/iris/client.go:569-572 | a transport error on the last attempt is returned |
| IrisClient.RefusedLoginDecides | pkg/tax/iris/client.go:581-585 | a refused login is returned as its reason, by the login's own status and body |
| IrisClient.TokensSent | pkg/tax/iris/client.go:542-590 | each request carries the token before it, or the token of the login that a 401 has just triggered |
| IrisClient.LoginsMade | pkg/tax/iris/client.go:581-590 | each 401 makes one login, and nothing else does |
| IrisClient.RetryAfterIsSlept | pkg/tax/iris/client.go:591-600 | a Retry-After of n seconds is slept as n x 10^9 ns, an HTTP date until then |
| IrisClient.OtherwiseDrawn | pkg/tax/iris/client.go:650-664 | a missing, unreadable, zero or past Retry-After names no delay |
| IrisClient.WaitsAreBounded | pkg/tax/iris/client.go:624-646 | every wait of a run is some busy reply's Retry-After or within the configured cap |
| IrisClient.TokensAreNotEmpty | pkg/tax/iris/client.go:597-600 | a non-empty token is only ever replaced by a non-empty one |
| IrisClient.LifetimeInSeconds | pkg/tax/iris/client.go:313-316 | a grant of n seconds lasts n x 10^9 ns, one without a lifetime an hour |
| IrisClient.TokenIsUsedUntil | pkg/tax/iris/client.go:511-528 | a token granted for n seconds is used until a minute before it expires |
| IrisClient.Client.Fetch | pkg/tax/iris/client.go:390-402 | a call that checks the code and the token first never sends a request with an empty token |
| Base64.TableIsTheAlphabet | pkg/bluesky/efd.go:588 | the table lists the RFC 4648 alphabet in order of value |
| Base64.Group | pkg/bluesky/efd.go:594-611 | the shifts and masks of a 24-bit group are the next four six-bit pieces of the input's bit string |
| Base64.EncodeGroup | pkg/bluesky/efd.go:594-616 | four characters are stored, with padding exactly where the input ends |
| Base64.EncodeBytes | pkg/bluesky/efd.go:587-618 | the whole output is the bit-string encoding, of length 4 x ceil(n / 3) |
| Base64.PaddingOfEncoding | pkg/bluesky/efd.go:603-612 | padding is exactly the last 0, 1 or 2 characters, by the length modulo 3 |
| Base64.DecodeOfEncode | pkg/bluesky/efd.go:587-618 | a strict decoder returns the input, for every byte string |
| Base64.EncodeOfDecode | pkg/bluesky/efd.go:587-618 | the strict decoder accepts only what the encoder writes |
| Base64.EncodeIsInjective | pkg/bluesky/efd.go:587-618 | two inputs never share an encoding |
| Scenario.WrappedTotal | pkg/scenario/service.go:23-26 | the running int64 total is the true total, wrapped |
| Scenario.ModelRound | pkg/scenario/service.go:8-102 | which inputs are accepted, in their own figures, and the whole pro-forma of the others |
| Scenario.InvestorGetsWholeShares | pkg/scenario/service.go:31-35 | price x existing shares is the pre-money valuation, and N x price <= investment < (N + 1) x price |
| Scenario.PoolMeetsTarget | pkg/scenario/service.go:39-51 | 0 <= p x fully diluted - pool < 1 - p |
| Scenario.RowsAccountForAllShares | pkg/scenario/service.go:53-90 | the rows' shares add up to the fully diluted shares and their percentages to 100 |
| Scenario.HolderRow | pkg/scenario/service.go:53-66 | a holder keeps its name and shares; its percentages are its part of the shares before and after, and its dilution their non-negative difference |
| Scenario.NewRows | pkg/scenario/service.go:68-89 | the added rows are the investor's and, if the pool grows, the pool's, with their part of the diluted shares and no past |
| Scenario.PercentagesBefore | pkg/scenario/service.go:55-61 | the holders' percentages before the round add up to 100 |
| Scenario.PostMoney | pkg/scenario/service.go:37 | the post-money valuation is the pre-money valuation and the investment, wrapped |
| Scenario.RoundsKeepHolders | pkg/scenario/service.go:53-66 | over any chain of rounds earlier holders keep their places and shares and the total never shrinks |
| Scenario.RoundsOnlyDilute | pkg/scenario/service.go:55-66 | no chain of rounds raises an earlier holder's stake |
| Scenario.RoundsKeepRatios | pkg/scenario/service.go:55-66 | no chain of rounds changes the ratio between two earlier holders |
| Scenario.ModelExit | pkg/scenario/service.go:106-149 | which inputs are accepted, and the rows of the others without the holders of no shares |
| Scenario.ExitPaysEverything | pkg/scenario/service.go:122-143 | the proceeds add up to the exit valuation |
| Scenario.ExitRowsAre | pkg/scenario/service.go:122-143 | exactly the holders with shares have a row, in order, with their part of the shares in per cent and the same part of the valuation |
| Conversion.BestPrice | pkg/conversion/service.go:180-193 | the result is the least positive price of the three, zero if there is none |
| Conversion.SelectBestPrice | pkg/conversion/service.go:180-193 | the loop computes the best price |
| Conversion.PriceIsBest | pkg/conversion/service.go:180-193 | a best price is unique and never above a positive round, cap or discount price |
| Conversion.ConvertSAFE | pkg/conversion/service.go:9-83 | every error by its condition, and the whole conversion otherwise, priced by the cap over the post-money shares for a post-money SAFE and over the pre-money shares for any other |
| Conversion.SafeHasPrice | pkg/conversion/service.go:43-46 | the last error of a SAFE is never reported: the earlier checks guarantee a price |
| Conversion.SafeFigures | pkg/conversion/service.go:9-83 | price x base shares is at most the cap, with equality exactly if neither the discounted nor the round price is lower; the least offer is the price, and term, effective discount and shares follow from it |
| Conversion.SafeErrors | pkg/conversion/service.go:10-41 | which SAFEs are refused, with which message |
| Conversion.InterestIsSimple | pkg/conversion/service.go:196-212 | interest runs exactly with a positive rate and time between issue and conversion (or maturity), and is to the principal as rate x time to 100 x 365 days |
| Conversion.ConvertNote | pkg/conversion/service.go:86-155 | every error by its condition, and the whole conversion otherwise, priced by the cap over the pre-money shares |
| Conversion.NoteFigures | pkg/conversion/service.go:86-155 | the same figures for a note, against the pre-money shares, and the amount converted is principal and interest |
| Conversion.NoteErrors | pkg/conversion/service.go:87-105 | which notes are refused, with which message |
| Conversion.SharesAreWhole | pkg/conversion/service.go:64 | shares x price <= amount < (shares + 1) x price |
| Conversion.LowerPriceBuysMore | pkg/conversion/service.go:64 | a lower price never buys fewer shares |
| Conversion.HigherDiscountLowersPrice | pkg/conversion/service.go:37-43 | below 100 a higher discount never raises the price |
| Conversion.RaisingDiscountIff | pkg/conversion/service.go:37-43 | exactly when raising a discount does not raise the price |
| Conversion.SafeGainsFromDiscount | pkg/conversion/service.go:37-64 | a higher discount below 100 never costs a SAFE shares |
| Conversion.SafeGainsFromLowerCap | pkg/conversion/service.go:20-64 | a lower positive cap never costs a SAFE shares |
| Conversion.NoteGainsFromDiscount | pkg/conversion/service.go:107-136 | a higher discount below 100 never costs a note shares |
| Conversion.NoteGainsFromLowerCap | pkg/conversion/service.go:98-136 | a lower positive cap never costs a note shares |
| Conversion.DiscountOfHundredCostsShares | pkg/conversion/service.go:37-64 | going from 99 to 100 raises the price from 0.5 to 50 and cuts 100 shares to one |
| Conversion.LowerCapLowersPrice | pkg/conversion/service.go:20-43 | a lower positive cap never raises the price |
| Conversion.TermIsHonestIff | pkg/conversion/service.go:48-62 | exactly when the named term is the one that set the price |
| Conversion.MisnamedTermExample | pkg/conversion/service.go:48-62 | a cap price of 10 over a round price of 5 is named although the round price is used |
| Conversion.ConvertAll | pkg/conversion/service.go:158-178 | all SAFEs then all notes in their order, or an error exactly when some instrument cannot be converted |
| Conversion.EventFigures | pkg/conversion/service.go:158-178 | the results are the SAFEs' and then the notes', each priced by its own terms |
| Conversion.EventCostsAtMostItsAmounts | pkg/conversion/service.go:158-178 | the shares of a whole event cost at most what was converted |
| TaxForms.CentsAreNearest | pkg/tax/submit.go:402-409 | cents are within half a cent of the dollars, ties away from zero, and odd in sign |
| TaxForms.WholeCentsAreExact | pkg/tax/submit.go:402-409 | whole cents survive |
| TaxForms.StripTIN | pkg/tax/submit.go:379-388 | exactly the digits, in order |
| TaxForms.PickEIN | pkg/tax/submit.go:392-400 | the loop returns the picked alternative |
| TaxForms.PickedEINIsFirst | pkg/tax/submit.go:390-400 | the picked EIN is the first alternative with a digit, and empty only if there is none |
| TaxForms.BuildersCoverTheirAmounts | pkg/tax/submit.go:303-375 | the payer's amount codes are exactly the payee's amount keys |
| TaxForms.SinglePayeeFileMarshals | pkg/tax/submit.go:290-375 | a built file is accepted by the writer |
| TaxForms.AmountOnWire | pkg/tax/fire/marshal.go:233-267 | a listed amount of a single payee, at the k-th code, reads back from columns 55 + 12k on of its B record and 16 + 18k on of its C record |
| TaxForms.BoxCents | pkg/tax/submit.go:402-409 | a fitting box is a non-negative amount of at most 12 digits within half a cent of its dollars |
| TaxForms.DividendsReachTheWire | pkg/tax/submit.go:279-326 | the three 1099-DIV boxes read back from columns 55, 67 and 91 on of the B record and 16, 34 and 70 on of the C record |
| TaxForms.ProceedsReachTheWire | pkg/tax/submit.go:330-376 | the three 1099-B boxes read back from columns 67, 79 and 163 on of the B record and 34, 52 and 178 on of the C record |
| TaxForms.DividendPartiesReachTheWire | pkg/tax/submit.go:279-326 | the T, A and B records show the tax year and name the looked-up transmitter, the payer, the form and the recipient with their digits-only TINs |
| TaxForms.BrokerPartiesReachTheWire | pkg/tax/submit.go:330-376 | the same for a 1099-B, under its own form code |
| TaxForms.BuildersLeaveBlank | pkg/tax/submit.go:291-375 | the A and B records of a built file are blank in every field the builder does not set |
| StateRouting.RoundingsAgreeIff | pkg/tax/cfsf/types.go:210-212 | this rounding and the form builders' agree exactly above minus half a cent, and differ by one cent below |
| StateRouting.NegativeCentExample | pkg/tax/cfsf/types.go:210-212 | minus one cent is zero here and minus one there |
| StateRouting.StateBreakdown | pkg/tax/cfsf/types.go:151-167 | each coded state maps to its payees' amounts in order, and no other state has an entry |
| StateRouting.BuildFiling | pkg/tax/cfsf/router.go:54-90 | the count, the wrapped totals and the routing of one state |
| StateRouting.SortedStates | pkg/tax/cfsf/router.go:37-41 | the keys in strictly increasing order |
| StateRouting.RouteToStates | pkg/tax/cfsf/router.go:31-50 | the requested states in their order, or all coded states in increasing order, each with its own filing |
| StateRouting.FilingReportsFields | pkg/tax/cfsf/types.go:151-207 | a filing's count, tax and income are those of the forms whose state field names it: their withheld taxes, and their state incomes or distributions |
| StateRouting.RoutedByProfile | pkg/tax/cfsf/router.go:54-90 | how a state is filed, by its profile: with the federal filing, not at all, or by hand at its portal, with code, address and notes |
| StateRouting.StatesPartition | pkg/tax/cfsf/types.go:151-167 | summed over distinct states covering the payees, any figure is its sum over the coded payees |
| StateRouting.RoutingPartitionsPayees | pkg/tax/cfsf/router.go:31-63 | with states inferred, counts, taxes and incomes add up to those of the payees with a state code |
| StateRouting.RoutingReportsAllFields | pkg/tax/cfsf/router.go:31-63 | with states inferred, taxes and incomes add up to the fields of all forms that name a state |
| StateRouting.NonNegativeTotalsFit | pkg/tax/cfsf/router.go:60-63 | non-negative amounts that fit in total fit in every state |
| CapTable.Service.IssueShares | pkg/captable/service.go:101-151 | every error by its condition, the caller's entry as the call leaves it, and the whole store after the call, partial failure included |
| CapTable.AcceptedIff | pkg/captable/service.go:101-148 | an issuance is accepted exactly with every field given, positive shares, room in a class of the same company, a new id and no fault |
| CapTable.IssueErrors | pkg/captable/service.go:101-148 | the error is the first check, in their order, that is not passed |
| CapTable.AcceptedEntry | pkg/captable/service.go:128-140 | an accepted issuance stores an active entry worth shares x price, and its holder is among the company's |
| CapTable.AcceptedClass | pkg/captable/service.go:142-148 | both counters of its class grow by the shares, wrapped, the class is dated now, and no other class changes |
| CapTable.HoldersAfterIssue | pkg/captable/service.go:128-140 | it takes no holder away and adds none but its own |
| CapTable.HoldersIff | pkg/captable/service.go:187-191 | a company's holders are those of its active entries |
| CapTable.DriftOfIssue | pkg/captable/service.go:138-148 | what one call does to the gap between counters and entries, whatever fails and whatever wraps |
| CapTable.InStepIff | pkg/captable/service.go:123-148 | a call keeps both counters of every class in step exactly when, having written its entry, it stores the counters and neither wraps |
| CapTable.WrappedIssueExample | pkg/captable/service.go:123-148 | one more share of a class full to the last int64 is accepted and throws both counters 2^64 behind |
| CapTable.AuthorizedUnlessWrapped | pkg/captable/service.go:123-126 | an accepted issuance stays within the authorized shares exactly when the counter does not wrap |
| CapTable.RunStaysAuthorized | pkg/captable/service.go:115-148 | over any run, failures and wraps included, no class shows more issued than authorized shares |
| CapTable.CountersFollowEntries | pkg/captable/service.go:138-148 | over any run each counter grows by the sum of the entries created, less exactly what failed updates and wraps lose |
| CapTable.RunInStepIff | pkg/captable/service.go:138-148 | losses never cancel: a run leaves a class in step exactly when every call does |
| CapTable.ListShareClasses | pkg/captable/service.go:159-162 | the listing the summary works on: the company's classes, each once, in any order |
| CapTable.CountHolders | pkg/captable/service.go:187-191 | the number of distinct holders of active entries |
| CapTable.GetSummary | pkg/captable/service.go:154-211 | the errors, the totals over the company's classes, and a row for each |
| CapTable.OwnershipIsWhole | pkg/captable/service.go:193-199 | the listed ownership adds up to 100 |
| CapTable.RowIs | pkg/captable/service.go:173-199 | a row carries its class's own counts, and its outstanding shares in per cent of the total |
| CapTable.RowsAddUp | pkg/captable/service.go:169-199 | the totals are those of the rows, and the rows' percentages add up to 100 |
| CapTable.RowsCoverCompany | pkg/captable/service.go:159-186 | every class of the company has exactly one row, and no other class has any |
| CapTable.SummaryCountsEntries | pkg/captable/service.go:173-176 | for classes that started empty the issued total is the sum of the issuance entries |

## Left out

- Floating-point rounding: amounts, prices and payouts are reals; a float64 division by zero of a wrapped total is modelled as zero.
- Text outside ASCII: upper-casing and trimming are modelled byte by byte, and the dash in a routing note is a hyphen.
- Duplicate class names in the waterfall: the tables and the ledger are keyed by name, so names are assumed distinct; shares, investments and multiples are assumed non-negative.
- int64 conversion of a float outside the range: Go leaves it to the platform; the model takes the least int64, and the theorems about rounds and conversions assume that the counts fit.
- FireFiles.Marshal: when form-specific entries of one payee disagree about a column, which walk of its map the bytes come from is left open, as the source leaves it.
- IrisClient.Client.DoRequest: the attempt counter is unbounded, so a retry budget of the largest int64 is not modelled as wrapping.
- IrisClient.Client.Fetch: stands for the shared opening of the client's calls; building paths and parsing bodies is left out.
- Scenario.RowsAccountForAllShares: assumes, as the other laws of a round's rows do, that no total leaves the int64 range, beyond which the source wraps.
- TaxForms.DividendsReachTheWire: boxes are assumed non-negative and below 10^10 dollars after rounding, the width of the columns.
- CapTable.Service.IssueShares: the caller's entry, which the source stamps in place, comes back as a value, and nil entries are not modelled.
- The state registry and the portals are uninterpreted data; the transmitter lookup is an input.
- Concurrent use of the client or the repository, mutexes, time zones and HTTP, JSON and XML plumbing.
- The retry loops of the edgar, bluesky and fire clients, which repeat this one without the 401 case.
- The CRUD services, status machines and one-step calculators of the other packages, which would add only easy members.
