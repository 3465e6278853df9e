# Financial management ledger — a Dafny model

This project models the bookkeeping core of a Next.js financial-management
module, as it exists in two generations side by side:

- the current one, under `crm_system/`;
- an older one, under `src/`.

A record (`FinancialRecord`) has these fields:
- an id;
- a timestamp;
- member, item, details and location texts;
- unit price and quantity;
- a stored total amount;
- a kind, either income or expense.

The pages turn a list of such records into the figures they display:

- **Record store** (`crm_system/src/lib/financialService.ts`): a module-level
  list with get, find-by-id, add, update, delete and monthly statistics.
  It is modelled as the class `Store.RecordStore`, whose methods reassign its
  `records` field.
- **List pages**: the case-insensitive search over four text fields, the
  income, expense and net cards, and delete by id (`Overview`, `Pages`).
- **By-name pages**:
  - the distinct member list in first-seen order;
  - the exact-match member selector;
  - the per-member income, expense and net panel;
  - both generations' treatment of the empty name (`ByName`).
- **Reports pages**:
  - Current generation: the time-range filter with its calendar bounds
    (this month, last month, this quarter, custom); monthly buckets keyed
    `YYYY-MM` and sorted ascending; the top five members and items by summed
    amount; the totals (`Reports`, `Monthly`, `Ranking`, `Calendar`).
  - Older generation: members ranked by net with income, expense and net;
    items ranked by total with a record count; the results on the page's
    five mock records (`LegacyReports`).
- **Add pages**:
  - Current generation: price × quantity with the `||` fallbacks of
    unparsable input, the `toFixed(2)` rounding, the record built on submit
    and appended to the stored list (`AddRecord`).
  - Older generation: quantity falls back to 1 and nothing is stored
    (`LegacyAdd`).
- **Sidebar**: the `isActive` highlighting rule (`Sidebar`).

Representation choices:
- **Amounts** are exact `real`s.
- **Timestamps** are already-parsed local calendar fields
  (`Ledger.DateTime`). A time that is not a real date stands for
  JavaScript's Invalid Date. Its month key is `NaN-NaN`, and every
  comparison with it is false.
- **Parsed numbers**: `parseFloat` and `parseInt` results are
  `Option`s, with `None` standing for NaN.
- **Loops**: each accumulator loop over a `Map` or an object is a method
  with a `for` loop. The loop invariant ties the map to a running sum over
  the records seen so far. Each method is proved equal to a
  specification function (`MonthlyStats`, `TopFive`, `MemberRanking`,
  `ItemRanking`). The properties the pages promise are proved as lemmas
  about those functions.

## Model

| member | source | states |
|---|---|---|
| Store.Stamp | crm_system/src/lib/financialService.ts:54-59 | the new record has the fresh id, the current time, and every other field of what the caller passed |
| Store.StampRoundTrip | crm_system/src/lib/financialService.ts:55-59 | stamping keeps everything the caller gave except the time, which is always replaced by now |
| Store.Merge | crm_system/src/lib/financialService.ts:69-73 | `{...record, ...patch, time}`; specified by Store.MergeFields and Store.MergeLaws |
| Store.MergeFields | crm_system/src/lib/financialService.ts:69-73 | each field present in the patch (the id included) replaces the stored one; each absent field keeps its old value, so `totalAmount` is not re-derived; the time is always now |
| Store.MergeLaws | crm_system/src/lib/financialService.ts:69-73 | an empty patch only refreshes the time; applying a patch twice is the same as applying it once |
| Store.FindIndex | crm_system/src/lib/financialService.ts:66 | a found index holds the id and no earlier position does; None exactly when no record has the id |
| Store.Replace | crm_system/src/lib/financialService.ts:75-79 | slicing around the index and putting the updated record between is replacing that one position |
| Store.FilterKeepsUniqueIds | crm_system/src/lib/financialService.ts:86 | keeping part of a list with unique ids keeps the ids unique |
| Store.RecordStore.constructor | crm_system/src/lib/financialService.ts:4-41 | the store starts with the three seed records, whose ids are unique |
| Store.RecordStore.GetRecords | crm_system/src/lib/financialService.ts:44-46 | returns the current list |
| Store.RecordStore.GetRecordById | crm_system/src/lib/financialService.ts:49-51 | a result is the first record with that id; None exactly when no record has it |
| Store.RecordStore.AddRecord | crm_system/src/lib/financialService.ts:54-62 | appends exactly one record, the stamped draft, at the end; every earlier record is unchanged; ids stay unique when the fresh id is new |
| Store.RecordStore.UpdateRecord | crm_system/src/lib/financialService.ts:65-82 | an unknown id gives the error NotFound and changes nothing; otherwise only the first position with the id is replaced by the merged record, the length is kept, and ids stay unique when the patch brings no id |
| Store.RecordStore.DeleteRecord | crm_system/src/lib/financialService.ts:85-87 | the new list is the old one without that id's records; no record with the id remains; unique ids stay unique |
| Store.RecordStore.GetMonthlyStats | crm_system/src/lib/financialService.ts:90-117 | returns the monthly trend `MonthlyStats` of the current list; the Monthly lemmas give its properties |
| Ledger.KindsPartitionTotal | crm_system/src/app/types/index.ts:1-12 | every record is income or expense, so the income sum plus the expense sum is the sum of all amounts |
| Ledger.TotalAppend | crm_system/src/app/financial_management/page.tsx:86-92 | the amount reduction over two joined lists is the sum of the reductions |
| Ledger.SumKindSnoc | crm_system/src/app/financial_management/page.tsx:86-92 | one more record adds its amount to its own kind's sum and nothing to the other |
| Ledger.SumKindEmpty | crm_system/src/app/financial_management/page.tsx:88 | the reduction of an empty list is its initial value 0 |
| Ledger.Project | crm_system/src/app/financial_management/by-name/page.tsx:67 | `records.map(key)`: same length, position by position the key of each record |
| Ledger.KeysMembership | crm_system/src/app/financial_management/by-name/page.tsx:67 | a value is among the distinct keys exactly when some record has it |
| Ledger.WithoutIdSpec | crm_system/src/lib/financialService.ts:86 | delete keeps an order-preserving subsequence; no kept record has the id; every record with another id is kept; the list is unchanged when the id is absent |
| Ledger.GroupsPartition | crm_system/src/app/financial_management/reports/page.tsx:81-101 | each record falls in exactly one key's group, so summing any quantity group by group over all keys gives its sum over all records |
| Ledger.RunningSumIsGroupSum | crm_system/src/app/financial_management/reports/page.tsx:94-98 | adding record by record with `+=` arrives at the sum over the key's records in the prefix |
| Ledger.SeenKeysAreKeys | crm_system/src/lib/financialService.ts:97-99 | the keys a loop opens, in the order it opens them, are the prefix's distinct keys in first-seen order |
| Calendar.NewDate | crm_system/src/app/financial_management/reports/page.tsx:147-159 | `new Date(y, m, d)` at local midnight is a real calendar date for any month index, which carries into the year, and day 0 |
| Calendar.NewDateMonth | crm_system/src/app/financial_management/reports/page.tsx:147-159 | a day of 1..28 lands in the month index's month and keeps the day; day 0 is the last day of the month before |
| Calendar.MonthKey | crm_system/src/app/financial_management/reports/page.tsx:83 | the month key `${year}-${pad2(month)}`; specified by Calendar.MonthKeyRoundTrip, Calendar.MonthKeyInjective and Calendar.MonthKeyChronological |
| Calendar.MonthKeyRoundTrip | crm_system/src/app/financial_management/reports/page.tsx:83 | the key `${year}-${pad2(month)}` reads back as exactly that year and month |
| Calendar.MonthKeyInjective | crm_system/src/app/financial_management/reports/page.tsx:83 | different months have different keys |
| Calendar.MonthKeyChronological | crm_system/src/app/financial_management/reports/page.tsx:103 | with four-digit years, comparing keys character by character is comparing the months in time |
| Calendar.Pad2Value | crm_system/src/app/financial_management/reports/page.tsx:83 | `padStart(2, '0')` gives two digits that denote the month |
| Text.Contains | crm_system/src/app/financial_management/page.tsx:76-79 | `includes`; specified by Text.ContainsIffOccurs |
| Text.Trim | crm_system/src/app/financial_management/page.tsx:72 | `trim()`, dropping JavaScript white space at both ends; specified by Text.TrimEmptyIffBlank |
| Text.StartsWith | crm_system/src/app/components/FinancialSidebar.tsx:13 | `startsWith`; specified by Sidebar.OtherActiveIffPrefix |
| Text.IntString | crm_system/src/app/financial_management/reports/page.tsx:83 | `String(n)`, a minus sign for negative n before the decimal digits; its contract says it is never empty, and Text.IntStringRoundTrip states that it parses back to n |
| Text.Pad2 | crm_system/src/app/financial_management/reports/page.tsx:83 | its contract: `padStart(2, '0')` of a month gives exactly two characters; their value is stated by Calendar.Pad2Value |
| Text.ContainsIffOccurs | crm_system/src/app/financial_management/page.tsx:76-79 | `includes` holds exactly when the needle occurs at some position |
| Text.Lower | crm_system/src/app/financial_management/page.tsx:76 | lower-casing keeps the length and maps each character on its own |
| Text.LowerIdempotent | crm_system/src/app/financial_management/page.tsx:76 | lower-casing twice is lower-casing once |
| Text.TrimEmptyIffBlank | crm_system/src/app/financial_management/page.tsx:72 | `trim()` is empty exactly when every character is JavaScript white space |
| Text.LexLessIrreflexive | crm_system/src/app/financial_management/reports/page.tsx:103 | no key sorts before itself |
| Text.LexLessAsymmetric | crm_system/src/app/financial_management/reports/page.tsx:103 | two keys never sort before each other |
| Text.LexLessTransitive | crm_system/src/app/financial_management/reports/page.tsx:103 | the key order is transitive |
| Text.LexLessTotal | crm_system/src/app/financial_management/reports/page.tsx:103 | any two different keys are ordered one way or the other |
| Text.DecimalRoundTrip | crm_system/src/app/financial_management/reports/page.tsx:83 | the decimal digits of `String(n)` denote n |
| Text.IntStringRoundTrip | crm_system/src/app/financial_management/reports/page.tsx:83 | `String(year)`, a minus sign included, parses back to the year |
| Seqs.Filter | crm_system/src/app/financial_management/page.tsx:75-80 | `filter` keeps only elements that satisfy the predicate and keeps every element that does |
| Seqs.FilterIsSubseq | crm_system/src/app/financial_management/page.tsx:75-80 | a filter result is an order-preserving subsequence of its input |
| Seqs.Distinct | crm_system/src/app/financial_management/by-name/page.tsx:67 | `new Set` dedupe: every element once, no other element, no duplicates |
| Seqs.DistinctFirstSeenOrder | crm_system/src/app/financial_management/by-name/page.tsx:67 | the distinct values come in the order of their first appearance |
| Seqs.Take | crm_system/src/app/financial_management/reports/page.tsx:119 | `slice(0, n)` is the prefix of length min(n, length) |
| Seqs.SortDescSorted | crm_system/src/app/financial_management/reports/page.tsx:118 | the descending sort leaves the keys non-increasing |
| Seqs.SortDescPermutes | crm_system/src/app/financial_management/reports/page.tsx:118 | the sort output is a permutation of its input |
| Seqs.SortDescStable | src/app/financial_management/reports/page.tsx:153 | elements with equal keys keep their relative order, as the stable `Array.prototype.sort` does |
| Monthly.RecordMonthKey | crm_system/src/app/financial_management/reports/page.tsx:82-83 | the key of `new Date(record.time)`, `NaN-NaN` for an Invalid Date; specified by Monthly.RecordMonthKeyFormat |
| Monthly.MonthlyStats | crm_system/src/app/financial_management/reports/page.tsx:78-104 | the monthly trend; specified by Monthly.MonthlyStatsSorted, Monthly.MonthlyStatsBuckets and Monthly.MonthlyStatsConserve, and computed by Monthly.MonthlyStatsRunningNet and Monthly.MonthlyStatsDeferredNet |
| Monthly.SortByMonth | crm_system/src/app/financial_management/reports/page.tsx:103 | the ascending sort keeps the length and the elements |
| Monthly.SortByMonthSorted | crm_system/src/app/financial_management/reports/page.tsx:103 | buckets with distinct keys come out strictly ascending by key |
| Monthly.SortByMonthAscending | crm_system/src/app/financial_management/reports/page.tsx:103 | buckets that are already ascending are left as they are |
| Monthly.MonthlyStatsSorted | crm_system/src/app/financial_management/reports/page.tsx:103 | the trend is strictly ascending by month key, so there is one bucket per key |
| Monthly.MonthlyStatsSortIdempotent | crm_system/src/app/financial_management/reports/page.tsx:103 | sorting the trend again changes nothing |
| Monthly.MonthlyStatsBuckets | crm_system/src/app/financial_management/reports/page.tsx:81-101 | each bucket holds the sums of exactly the records with its key, and its net is income minus expense; a bucket exists exactly for the keys some record has |
| Monthly.MonthlyStatsConserve | crm_system/src/app/financial_management/reports/page.tsx:81-101 | bucket incomes add up to the total income and bucket expenses to the total expense; together they are the sum of all amounts; the nets add up to income minus expense |
| Monthly.NetSum | crm_system/src/lib/financialService.ts:114 | when every entry's net is income minus expense, the nets sum to the incomes minus the expenses |
| Monthly.AscendingKeysTrend | crm_system/src/app/financial_management/reports/page.tsx:103 | when months first appear in ascending order, the trend lists the buckets in that first-seen order |
| Monthly.RecordMonthKeyFormat | crm_system/src/app/financial_management/reports/page.tsx:82-83 | a real date's key is `String(year)`, a dash and the two-digit month, and it reads back as that year and month |
| Monthly.SumsOpenStep | crm_system/src/lib/financialService.ts:97-99 | opening a new key with zero sums, at the end of the insertion order, keeps the map equal to the running sums |
| Monthly.SumsCreditStep | crm_system/src/lib/financialService.ts:101-106 | crediting the record to income or expense by its kind advances the running sums by one record |
| Monthly.FinishIsBuckets | crm_system/src/lib/financialService.ts:109-115 | mapping the finished map's entries, with net computed once, gives the buckets in insertion order |
| Monthly.MonthlyStatsDeferredNet | crm_system/src/lib/financialService.ts:90-117 | the Map loop with net derived at the end computes `MonthlyStats`; `calculateMonthlyStats` at src/app/financial_management/reports/page.tsx:105-132 is the same code |
| Monthly.StatsOpenStep | crm_system/src/app/financial_management/reports/page.tsx:85-92 | a new key enters with month set and zero income, expense and net, keeping the loop state |
| Monthly.StatsCreditStep | crm_system/src/app/financial_management/reports/page.tsx:94-100 | `+=` by kind followed by the refreshed net advances the loop state by one record |
| Monthly.ValuesIsBuckets | crm_system/src/app/financial_management/reports/page.tsx:103 | `Object.values` of the finished object are the buckets in insertion order |
| Monthly.MonthlyStatsRunningNet | crm_system/src/app/financial_management/reports/page.tsx:78-104 | the object loop that refreshes the net after every record computes `MonthlyStats` |
| Ranking.Ranking | crm_system/src/app/financial_management/reports/page.tsx:107-118 | the per-key totals sorted by amount, largest first; specified by Ranking.RankingSpec, Ranking.RankingEntries, Ranking.RankingTies and Ranking.RankingConserves |
| Ranking.TopFive | crm_system/src/app/financial_management/reports/page.tsx:107-120 | the first five of the ranking; specified by Ranking.TopFiveSpec and computed by Ranking.TopBy |
| Ranking.RankingSpec | crm_system/src/app/financial_management/reports/page.tsx:117-118 | the ranking has one entry per distinct key, is non-increasing by amount, and is a permutation of the per-key totals |
| Ranking.RankingEntries | crm_system/src/app/financial_management/reports/page.tsx:110-118 | every entry is a key of the records with that key's summed amount, and every key appears with its sum |
| Ranking.RankingTies | crm_system/src/app/financial_management/reports/page.tsx:118 | among equal amounts the key met first in the records comes first |
| Ranking.RankingConserves | crm_system/src/app/financial_management/reports/page.tsx:110-115 | the per-key sums, income and expense alike, add up to the sum of all amounts |
| Ranking.TopFiveSpec | crm_system/src/app/financial_management/reports/page.tsx:117-119 | there are min(5, number of keys) entries forming a prefix of the ranking, and no key left out has a larger amount than one shown |
| Ranking.AmountOpenStep | crm_system/src/app/financial_management/reports/page.tsx:111-113 | a new key enters with 0 at the end of the insertion order; resetting a key whose sum is 0 (falsy) changes nothing |
| Ranking.AmountCreditStep | crm_system/src/app/financial_management/reports/page.tsx:114 | adding the record's amount advances the tally by one record |
| Ranking.TallyAmounts | crm_system/src/app/financial_management/reports/page.tsx:110-115 | after the loop each key in the object holds its records' summed amount, and keys are in first-seen order |
| Ranking.EntriesAreTallies | crm_system/src/app/financial_management/reports/page.tsx:117 | `Object.entries` of the finished tally are the keys with their totals in insertion order |
| Ranking.TopBy | crm_system/src/app/financial_management/reports/page.tsx:108-120 | the tally loop with sort and slice computes `TopFive` |
| Ranking.TopMembers | crm_system/src/app/financial_management/reports/page.tsx:107-121 | `getTopMembers` is the top five members by summed amount |
| Ranking.TopItems | crm_system/src/app/financial_management/reports/page.tsx:124-138 | `getTopItems` is the top five items by summed amount |
| Reports.FilterByRangeAsWritten | crm_system/src/app/financial_management/reports/page.tsx:141-168 | the `switch (timeRange)` as written; specified by Reports.ThisMonthMeaning, Reports.LastMonthAsWrittenMeaning, Reports.QuarterMeaning and Reports.FilterByRangeKeeps |
| Reports.FilterByRange | crm_system/src/app/financial_management/reports/page.tsx:141-168 | the same switch with the whole previous month for last-month; specified by Reports.LastMonthMeaning and Reports.FilterByRangeKeeps |
| Reports.FiguresOf | crm_system/src/app/financial_management/reports/page.tsx:170-182 | the trend, both top-five tables and the totals of a filtered list; specified by Reports.ReportAgrees |
| Reports.ReportOf | crm_system/src/app/financial_management/reports/page.tsx:141-182 | what the page shows, from the filter as written; specified by Reports.ReportAgrees and computed by Reports.BuildReport |
| Reports.IntendedReportOf | crm_system/src/app/financial_management/reports/page.tsx:141-182 | the page with the corrected last-month range; related to Reports.ReportOf by Reports.IntendedReportDiffers |
| Reports.ThisMonthBound | crm_system/src/app/financial_management/reports/page.tsx:147 | the this-month bound is 00:00 on the 1st of the current month |
| Reports.LastMonthBounds | crm_system/src/app/financial_management/reports/page.tsx:151-152 | the last-month start is 00:00 on the 1st of the previous month, wrapping January into December of the year before; the end is 00:00 on the previous month's last day |
| Reports.QuarterBound | crm_system/src/app/financial_management/reports/page.tsx:159 | the quarter start is the 1st of month 1, 4, 7 or 10 of the current year, the one that begins the current quarter |
| Reports.BoundsSpec | crm_system/src/app/financial_management/reports/page.tsx:147-159 | the four bounds together, as above |
| Reports.ThisMonthMeaning | crm_system/src/app/financial_management/reports/page.tsx:146-148 | this-month keeps exactly the dated records from the current month on, later months included, with no upper bound |
| Reports.QuarterMeaning | crm_system/src/app/financial_management/reports/page.tsx:158-160 | this-quarter keeps exactly the dated records from the quarter's first month on |
| Reports.LastMonthAsWrittenMeaning | crm_system/src/app/financial_management/reports/page.tsx:150-156 | the last-month filter as written keeps the previous month's records except those after 00:00 on its last day |
| Reports.LastMonthMeaning | crm_system/src/app/financial_management/reports/page.tsx:150-156 | the corrected last-month filter keeps exactly the records of the previous calendar month |
| Reports.LastMonthAsWrittenDropsLastDay | crm_system/src/app/financial_management/reports/page.tsx:152-155 | on 15 February 2024, a record from 10:30 on 31 January is dropped by the filter as written and kept by the corrected one |
| Reports.FilterByRangeKeeps | crm_system/src/app/financial_management/reports/page.tsx:143-168 | with the last-month bound as written and with the corrected one, every range keeps an order-preserving subsequence; custom and unknown ranges keep all records; the two filters differ only on last-month |
| Reports.ReportAgrees | crm_system/src/app/financial_management/reports/page.tsx:170-182 | on the page as written, for every range, the trend's incomes and expenses add up to the totals; member and item amounts add up to income plus expense; net is income minus expense |
| Reports.IntendedReportDiffers | crm_system/src/app/financial_management/reports/page.tsx:150-182 | the page as written and the page with the corrected last-month range show the same on every other range; on 15 February 2024 a record from 10:30 on 31 January adds 500 to the corrected page's income, and the page as written shows no trend row and income 0 |
| Reports.BuildReport | crm_system/src/app/financial_management/reports/page.tsx:141-182 | the filter effect as written, then the trend, both top-five tables and the totals, all from the filtered list |
| LegacyReports.MemberRanking | src/app/financial_management/reports/page.tsx:134-154 | the member rows sorted by net, largest first; specified by LegacyReports.MemberRankingSpec, LegacyReports.MemberRankingEntries and LegacyReports.MemberRankingConserves |
| LegacyReports.MemberRankingSpec | src/app/financial_management/reports/page.tsx:151-153 | one row per distinct member, non-increasing by net, a permutation of the rows, equal nets in first-seen order |
| LegacyReports.MemberRankingEntries | src/app/financial_management/reports/page.tsx:137-152 | every row is a member of the records with income from that member's income records and expense from the rest; net is income minus expense; every member has a row |
| LegacyReports.MemberRankingConserves | src/app/financial_management/reports/page.tsx:137-149 | the members' incomes, expenses and nets add up to total income, total expense and their difference |
| LegacyReports.StandingsOpenStep | src/app/financial_management/reports/page.tsx:138-140 | a new member enters with zero income, expense and net, keeping the loop state |
| LegacyReports.StandingsPostStep | src/app/financial_management/reports/page.tsx:142-148 | crediting by kind, then recomputing the net, advances the loop state by one record |
| LegacyReports.MemberEntriesAreRows | src/app/financial_management/reports/page.tsx:151-152 | the Map's entries spread into rows are the member rows in insertion order |
| LegacyReports.TopMembersByNet | src/app/financial_management/reports/page.tsx:134-154 | the Map loop with the sort computes `MemberRanking` |
| LegacyReports.ItemRanking | src/app/financial_management/reports/page.tsx:156-172 | the item rows sorted by total, largest first; specified by LegacyReports.ItemRankingSpec, LegacyReports.ItemCountIsLength and LegacyReports.ItemRankingConserves |
| LegacyReports.ItemCountIsLength | src/app/financial_management/reports/page.tsx:166 | an item's count, the integer number of its records, is what adding 1 per record of that item gives |
| LegacyReports.ItemRankingSpec | src/app/financial_management/reports/page.tsx:169-171 | one row per distinct item, non-increasing by total, a permutation of the rows, equal totals in first-seen order |
| LegacyReports.ItemRankingConserves | src/app/financial_management/reports/page.tsx:157-167 | the item totals add up to the sum of all amounts, and the counts to the number of records |
| LegacyReports.ItemOpenStep | src/app/financial_management/reports/page.tsx:160-162 | a new item enters with total and count 0, keeping the loop state |
| LegacyReports.ItemCountStep | src/app/financial_management/reports/page.tsx:164-166 | adding the amount and 1 advances the loop state by one record |
| LegacyReports.ItemEntriesAreRows | src/app/financial_management/reports/page.tsx:169-170 | the Map's entries spread into rows are the item rows in insertion order |
| LegacyReports.TopItemsByTotal | src/app/financial_management/reports/page.tsx:156-172 | the Map loop with the sort computes `ItemRanking` |
| LegacyReports.LegacyReportOf | src/app/financial_management/reports/page.tsx:105-182 | the older page's trend, member and item tables and totals; specified by LegacyReports.LegacyReportAgrees and computed by LegacyReports.BuildLegacyReport |
| LegacyReports.BuildLegacyReport | src/app/financial_management/reports/page.tsx:105-182 | the page's trend, member table, item table and totals |
| LegacyReports.LegacyReportAgrees | src/app/financial_management/reports/page.tsx:174-182 | the members' nets and the months' nets each add up to the page's net; item totals add up to income plus expense; counts add up to the number of records |
| LegacyReports.MockMonthKeyDigits | src/app/financial_management/reports/page.tsx:110 | the keys of January, February and March 2024 are `2024-01`, `2024-02` and `2024-03` |
| LegacyReports.LegacyMockMonthKeys | src/app/financial_management/reports/page.tsx:33-94 | the five mock records fall in those three months, first seen in that order |
| LegacyReports.LegacyMockMonths | src/app/financial_management/reports/page.tsx:33-94 | the mock gives exactly three buckets, 2024-01, 2024-02 and 2024-03, in that order |
| LegacyReports.LegacyMockCourseRecords | src/app/financial_management/reports/page.tsx:33-94 | 課程費用 is the item of the first, fourth and fifth mock records |
| LegacyReports.LegacyMockCourses | src/app/financial_management/reports/page.tsx:33-94 | 課程費用 has total 1600 and count 3 |
| LegacyReports.LegacyMockEquipmentRecords | src/app/financial_management/reports/page.tsx:33-94 | 器材購買 is the item of the second and third mock records |
| LegacyReports.LegacyMockEquipment | src/app/financial_management/reports/page.tsx:33-94 | 器材購買 has total 349.94 and count 2 |
| Overview.Search | crm_system/src/app/financial_management/page.tsx:71-83 | the search effect; specified by Overview.SearchSpec, Overview.MentionsIgnoresCase and Overview.SearchIdempotent |
| Overview.TotalsOf | crm_system/src/app/financial_management/page.tsx:86-94 | the income, expense and net cards; specified by Overview.TotalsSpec |
| Overview.SearchSpec | crm_system/src/app/financial_management/page.tsx:71-83 | a blank term keeps every record; otherwise a record is kept exactly when its member, item, details or location mentions the term; always an order-preserving subsequence |
| Overview.MentionsIgnoresCase | crm_system/src/app/financial_management/page.tsx:76-79 | matching gives the same answer on lower-cased field and term |
| Overview.SearchIdempotent | crm_system/src/app/financial_management/page.tsx:75-80 | searching the result again with the same term changes nothing |
| Overview.PaddedNameFindsNothing | crm_system/src/app/financial_management/page.tsx:72-79 | the trim is only for the blank test: ` 張三` finds nothing in the default records |
| Overview.BareNameFindsRecord | crm_system/src/app/financial_management/page.tsx:75-80 | `張三` finds exactly that member's default record |
| Overview.TotalsSpec | crm_system/src/app/financial_management/page.tsx:86-94 | income plus expense is every amount; net is their difference; the cards of two joined lists are the sums of their cards; an empty list shows 0, 0, 0 |
| Overview.DefaultTotals | src/app/financial_management/page.tsx:24-62 | on the two mock records the cards show 500, 149.94 and 350.06 |
| Overview.ListViewOf | crm_system/src/app/financial_management/page.tsx:71-94 | what the page shows is the search over the loaded records, and the cards are computed from what is shown |
| Overview.DeleteThenSearch | crm_system/src/app/financial_management/page.tsx:101-104 | deleting and then searching shows the same as searching and then deleting |
| Overview.HandleDeleteSpec | crm_system/src/app/financial_management/page.tsx:96-107 | the written-back list is an order-preserving subsequence that has no record with the id and keeps every other record |
| Pages.LoadRecords | crm_system/src/app/financial_management/by-name/page.tsx:29-60 | the stored list when storage holds one, otherwise the two default records, with nothing written |
| Pages.LoadListPage | crm_system/src/app/financial_management/page.tsx:28-68 | the list page shows what `LoadRecords` gives and afterwards storage holds exactly that list: the stored one, or the defaults it writes when nothing was stored |
| Pages.DeleteAfterListLoad | crm_system/src/app/financial_management/page.tsx:65-105 | after the list page's load a delete always writes back the shown list without the id; on a fresh browser, deleting record "1" stores record "2" alone |
| Pages.HandleDelete | crm_system/src/app/financial_management/page.tsx:98-105 | nothing is written when storage is empty; otherwise the stored list without that id |
| ByName.Members | crm_system/src/app/financial_management/by-name/page.tsx:67 | the member list; specified by ByName.MembersSpec |
| ByName.Selected | crm_system/src/app/financial_management/by-name/page.tsx:70-72 | the records shown for a selection; specified by ByName.SelectedSpec |
| ByName.MemberStats | crm_system/src/app/financial_management/by-name/page.tsx:75-89 | `getMemberStats`, with `''` meaning every record; specified by ByName.MemberStatsAgree, ByName.MemberStatsPartition and ByName.MemberStatsAddUp |
| ByName.ExactMemberStats | src/app/financial_management/by-name/page.tsx:97-108 | the older page's `getMemberStats`, an exact match even for `''`; specified by ByName.MemberStatsAgree and ByName.ExactStatsOfNobody |
| ByName.MembersSpec | crm_system/src/app/financial_management/by-name/page.tsx:67 | the member list has no duplicates, holds exactly the members of some record, and follows first-appearance order |
| ByName.SelectedSpec | crm_system/src/app/financial_management/by-name/page.tsx:70-72 | no selection shows every record; a selection shows exactly the records whose member equals it, case-sensitively and in order |
| ByName.DeleteThenSelect | crm_system/src/app/financial_management/by-name/page.tsx:92-102 | deleting and then selecting shows the same as selecting and then deleting |
| ByName.MemberStatsAgree | crm_system/src/app/financial_management/by-name/page.tsx:75-89 | for a non-empty name both generations' panels agree; for `''` the current page totals the whole list |
| ByName.ExactStatsOfNobody | src/app/financial_management/by-name/page.tsx:97-108 | the older page's panel for `''` counts only unnamed records, so it shows zeros when every record is named |
| ByName.MemberStatsPartition | crm_system/src/app/financial_management/by-name/page.tsx:75-89 | the listed members' exact-match panels add up to the totals of all records |
| ByName.MemberStatsAddUp | crm_system/src/app/financial_management/by-name/page.tsx:67-88 | when every record is named, the current page's panels for the listed members add up to its panel for `''` |
| ByName.LegacyMockZhangRecords | src/app/financial_management/by-name/page.tsx:28-77 | 張三 has the first and the third of the four mock records |
| ByName.LegacyMockZhang | src/app/financial_management/by-name/page.tsx:28-107 | on the mock, 張三 has income 500, expense 200 and net 300 |
| AddRecord.DefaultForm | crm_system/src/app/financial_management/add/page.tsx:13-21 | the form starts with empty texts, quantity `'1'` and type income |
| AddRecord.FallbackReal | crm_system/src/app/financial_management/add/page.tsx:29 | `x \|\| d`: a parsed non-zero number is kept; NaN and 0 fall back to d |
| AddRecord.FallbackInt | crm_system/src/app/financial_management/add/page.tsx:30 | the same fallback for integers |
| AddRecord.Round2 | crm_system/src/app/financial_management/add/page.tsx:31 | `toFixed(2)` read back as a number; specified by AddRecord.Round2Cents, AddRecord.Round2Close, AddRecord.Round2Nearest and AddRecord.Round2Odd |
| AddRecord.Round2Cents | crm_system/src/app/financial_management/add/page.tsx:31 | the rounded value is a whole number of cents |
| AddRecord.Round2Close | crm_system/src/app/financial_management/add/page.tsx:31 | rounding moves a value by at most half a cent |
| AddRecord.Round2Nearest | crm_system/src/app/financial_management/add/page.tsx:31 | no whole number of cents is nearer to the value than its rounding |
| AddRecord.Round2Exact | crm_system/src/app/financial_management/add/page.tsx:31 | a whole number of cents rounds to itself |
| AddRecord.Round2Idempotent | crm_system/src/app/financial_management/add/page.tsx:31 | rounding twice is rounding once |
| AddRecord.Round2Odd | crm_system/src/app/financial_management/add/page.tsx:31 | rounding is symmetric about zero, because `toFixed` rounds the magnitude |
| AddRecord.CalculateTotal | crm_system/src/app/financial_management/add/page.tsx:28-32 | 0 when the price or the quantity does not parse; otherwise price × quantity rounded to cents |
| AddRecord.CalculateTotalClose | crm_system/src/app/financial_management/add/page.tsx:28-32 | with both inputs parsed, the total is within half a cent of price × quantity |
| AddRecord.CalculateTotalCents | crm_system/src/app/financial_management/add/page.tsx:39 | every stored total is a whole number of cents |
| AddRecord.DefaultFormTotal | crm_system/src/app/financial_management/add/page.tsx:13-32 | the untouched form, with an empty price, shows a total of 0 |
| AddRecord.NewRecord | crm_system/src/app/financial_management/add/page.tsx:40-47 | the record has the fresh id and the time, copies the form's texts and type, keeps the raw parses, NaN included, and has `totalAmount` equal to `calculateTotal()` |
| AddRecord.HandleSubmit | crm_system/src/app/financial_management/add/page.tsx:49-53 | the written list is the stored list (empty when there is none) with exactly the new record appended at the end |
| AddRecord.SubmitThenDelete | crm_system/src/app/financial_management/add/page.tsx:40-53 | deleting a freshly added record whose id is new restores the previous list |
| LegacyAdd.LegacyTotal | src/app/financial_management/add/page.tsx:28-32 | 0 for an unparsable price; an unparsable or zero quantity counts as 1; otherwise price × quantity rounded to cents |
| LegacyAdd.TotalsAgree | src/app/financial_management/add/page.tsx:28-32 | the two generations' totals agree exactly when the quantity parses to non-zero or the price rounds to 0; otherwise the current page gives 0 and the older one the price |
| LegacyAdd.DefaultFormLegacyTotal | src/app/financial_management/add/page.tsx:9-17 | the older page's untouched form also shows 0 |
| LegacyAdd.LegacyRecord | src/app/financial_management/add/page.tsx:38-46 | the built record copies the form, keeps the raw parses, carries the older total and the time, and has no id |
| LegacyAdd.LegacyRecordStamped | src/app/financial_management/add/page.tsx:40-46 | given an id, the older record is the current page's record exactly when the two totals agree |
| Sidebar.IsActive | crm_system/src/app/components/FinancialSidebar.tsx:9-14 | `isActive(path)`; specified by Sidebar.OverviewActiveIffEqual and Sidebar.OtherActiveIffPrefix |
| Sidebar.Highlighted | crm_system/src/app/components/FinancialSidebar.tsx:25-79 | whether a link is drawn highlighted, with the overview's repeated equality test at line 28; specified by Sidebar.OverviewActiveIffEqual, Sidebar.OtherActiveIffPrefix and Sidebar.AtMostOneHighlighted |
| Sidebar.OverviewActiveIffEqual | crm_system/src/app/components/FinancialSidebar.tsx:10-11 | the overview link is active, and highlighted, exactly on `/financial_management` itself |
| Sidebar.OtherActiveIffPrefix | crm_system/src/app/components/FinancialSidebar.tsx:13 | any other link is active exactly when the pathname starts with its path |
| Sidebar.SubPageHighlightsByName | crm_system/src/app/components/FinancialSidebar.tsx:25-45 | a page below the by-name page highlights the by-name link and not the overview |
| Sidebar.AtMostOneHighlighted | crm_system/src/app/components/FinancialSidebar.tsx:25-79 | on any pathname, no two of the four links are highlighted together |

## Left out

- `parseFloat`, `parseInt` and `new Date(string)`: these library parsers are not modelled. Their results are parameters or already-parsed fields (`Option<real>`, `Option<int>`, `DateTime`).
- Local time zones, and the UTC `Z` times of the service's seed records: times are taken as local calendar fields.
- Time strings: `Date.now().toString()`, `toLocaleString('zh-TW')` and `toISOString()` are not modelled. The fresh id and the current time are parameters.
- `localStorage` and JSON: the stored value is an `Option<seq<Record>>`, `None` meaning nothing stored. `JSON.stringify` writing NaN as `null` is not modelled.
- IEEE floating point: amounts are exact reals. Sums never round and overflow to Infinity does not happen. `AddRecord.Round2` rounds the exact product to the nearest cent, with ties away from zero. `toFixed` does the same on the binary double, so the two can differ at a tie that the double does not represent exactly.
- `toLowerCase`: Unicode case mapping is not modelled. `Text.LowerChar` maps only `A`–`Z`, and leaves the Chinese texts of the data unchanged.
- `localeCompare`: modelled by character-code order (`Text.LexLess`). The two agree on the digit-and-dash month keys. The other key compared is an Invalid Date's `NaN-NaN`; both orders put it after keys that start with a digit.
- JavaScript object key order: integer-like member or item names, which objects list first in ascending order, are not modelled. Neither are names inherited from `Object.prototype` (such as `constructor`) in the report page's tally objects. Both orders are taken as insertion order.
- JSX rendering, React state and effects, `useAuth`, `router.push`, `window.confirm`, `console.log`, and the `async`/`setTimeout` wrappers: none of these are modelled. Each effect is a function from its inputs to the new list, and nothing runs concurrently.
- `Store.RecordStore.UpdateRecord`: ids stay unique only when the patch brings no id. A patch that sets another record's id is allowed by the service, and the model allows it too.
- `LegacyReports.BuildLegacyReport`: returns the whole member ranking and the whole item ranking. The pages cut both to five while rendering: the members at src/app/financial_management/reports/page.tsx:287 and the items at line 312. Each cut is the same `slice(0, 5)` that `Ranking.TopFiveSpec` covers.
- `ByName.MemberStatsAddUp`: requires every record to be named. An unnamed record (member `''`) would be counted in the current page's panel for `''` but belongs to no listed name other than `''` itself.
- `LegacyAdd.LegacyRecord`: the older page only logs the record and stores nothing. The model returns the record and has no storage step.
- `crm_system/src/app/types/financial-record.ts` is not part of this model. It repeats the record type without logic, and the type is defined once, in `Ledger.Record`.

## Findings

| source | as written | input that shows it | evidently intended | confidence | as-written member | corrected member |
|---|---|---|---|---|---|---|
| crm_system/src/app/financial_management/reports/page.tsx:152-155 | the last-month range ends at `new Date(y, m, 0)`, 00:00 on the previous month's last day, with `<=`, so records later on that day are dropped | now 2024-02-15 10:00, a record at 2024-01-31 10:30 | the whole previous calendar month, that is, from the 1st of last month up to, but excluding, 00:00 on the 1st of this month | high; not executed | Reports.FilterByRangeAsWritten, Reports.LastMonthAsWrittenDropsLastDay | Reports.FilterByRange, Reports.LastMonthMeaning, Reports.IntendedReportDiffers |

The model of the page (`Reports.ReportOf`, `Reports.BuildReport`) keeps the
last-month filter as written. `Reports.IntendedReportOf` is the same page
with the corrected range.
