# Lead qualification and board logic of the CRM front-end

This project is a Dafny model of the decision logic in a lead-management
dashboard. The dashboard is a Next.js front-end where administrators assign
hotel and lodging leads to SDRs (sales development reps), and SDRs move their
leads through a pipeline on drag-and-drop boards.

The centre of the model is the **lead-qualification engine** of
`src/lib/kanban.ts`. It has four parts:

- `faturamentoParaValor` turns a free-text revenue label ("Entre R$ 5 a R$ 20 mil")
  into a representative amount.
- `obterQualificacaoEColuna` places a lead in one of five tiers. It tries, in
  order, a community-source override, a ladder for cabins, chalets and
  "Outros", a ladder for hotels, and a label table for every other lodging type.
- A fixed tier-to-column table maps the tiers to the board columns "Nível 1" to
  "Nível 4" and "Comunidade", with a fixed render order.
- `agruparLeadsPorColuna` groups leads by column, and `podeVerQualificacao`
  decides which columns a user may see.

Around the engine sit the smaller pure cores that the pages and components
embed:

- the filter bar (`filterLeads` and its toggles);
- the administrator's board: views, column visibility and optimistic updates;
- the SDR pipeline: the arrows, drags and returns;
- the two-column community board;
- the dashboard's integer aggregates;
- the TTL cache of the data layer;
- the user form and the change-password form;
- the lead-transfer dialog.

Every operation is a pure function over immutable datatypes. The parts the
model does not include are listed under "Left out":

- Network calls are replaced by their outcome: the rows a query returned, or
  whether a call succeeded. Only the local state change after that outcome is
  modelled.
- The clock is an explicit `now` argument.
- JavaScript string semantics are written out in `Strings`:
  - ASCII `toLowerCase`;
  - `includes` as a substring test;
  - the ECMAScript whitespace set for `\s` and `trim`;
  - `<` on strings as lexicographic order by character. JavaScript compares
    UTF-16 code units; the two orders differ only between a character above
    U+FFFF and one in U+E000–U+FFFF, and the only strings compared are
    "yyyy-MM-dd" days;
  - `.length` as a count of UTF-16 code units.
- Values that may be `null` or `undefined` are `Option`. Wherever the source
  tests truthiness, `None` and `Some("")` behave the same.

## Modules

| file | module | models |
|---|---|---|
| optional.dfy | `Optional` | absent values |
| strings.dfy | `Strings` | the string built-ins the source calls |
| seqs.dfy | `Seqs` | `filter`, `map`, `find` and counts |
| kanban.dfy | `Kanban` | `src/lib/kanban.ts` |
| revenue_labels.dfy | `RevenueLabels` | the engine evaluated on the six revenue choices of the lead intake form |
| leads.dfy | `Leads` | lead and profile records; the shared optimistic list updates and drag handling |
| lead_filters.dfy | `LeadFilters` | `src/components/LeadFilters.tsx` |
| admin_board.dfy | `AdminBoard` | `src/app/admin/kanban/page.tsx` |
| sdr_board.dfy | `SdrBoard` | `src/app/sdr/kanban/page.tsx` |
| community_board.dfy | `CommunityBoard` | `src/app/sdr/comunidade/page.tsx` |
| dashboard.dfy | `Dashboard` | `src/app/admin/dashboard/page.tsx` |
| lead_cache.dfy | `LeadCache` | the cache in `src/lib/leads.ts` |
| user_form.dfy | `UserForm` | `src/components/UserFormModal.tsx` |
| password_form.dfy | `PasswordForm` | `src/components/ChangePasswordModal.tsx` |
| transfer_modal.dfy | `TransferModal` | `src/components/TransferLeadsModal.tsx` |

## Behaviour the model exhibits

**Parser checks that never decide anything.** The parser takes the first check
that matches. As a result, three checks never decide the result:

- "menos de 15000" and "menos de 50000" are caught first by "5000";
- "entre 20000 e 50000" is caught first by "5" and "20000".

`Kanban.ParseRevenueDeadChecks` proves that the parser equals one with those
checks removed.

**Most intake labels parse to 0.** In the lead form's revenue choices, "mil"
follows only the upper amount. The labels
"Entre R$ 20 a R$ 50 mil", "Entre R$ 50 a R$ 100 mil" and "Entre R$ 100 a R$ 500 mil"
therefore match no check and parse to 0. The consequences:

- A hotel, inn or resort is "Nível 1" for every revenue choice except
  "Mais de R$ 500 mil". In particular, "Entre R$ 50 a R$ 100 mil" gives
  "Nível 1", not "Nível 2" (`RevenueLabels.HotelFiftyToHundredIsLevelOne`).
- A cabin, chalet or "Outros" lead is "Comunidade" for every choice except the
  top one.

The source's own comments say otherwise. The unused hotel table maps that
label to "Nível 2" (src/lib/kanban.ts:103), and so does the comment above the
hotel ladder (src/lib/kanban.ts:195). The label parses to 0, though, so the
ladder gives "Nível 1". The model follows the code.

**Classification buttons filter out every lead.** The filter bar's
classification buttons send "Lead A" to "Lead E". No column has such a name, so
any of these buttons empties every board (`LeadFilters.ButtonsMatchNothing`).

**A capitalised "Comunidade" source drops off the community board on refetch.**
The community board loads leads whose source lower-cases to "comunidade". After
a failed sale or reopen it refetches with a case-sensitive `=== 'comunidade'`.
A lead whose source is written "Comunidade" is shown at first and drops off
after that refetch (`CommunityBoard.CapitalisedSourceDropsOnRefetch`).

**A failed transfer load keeps the earlier selection.** When loading a source
SDR's leads fails in the transfer dialog, the list is emptied but the previous
selection is kept. "Transfer selected" then still sends those ids
(`TransferModal.FailedLoadKeepsSelection`).

**Column visibility has more cases than the tier test.** The library's
`podeVerQualificacao` (src/lib/kanban.ts:230-235) only asks whether the tier is
among the permitted tiers. The global board does not call it. Its own
`podeVerCardsColuna` (src/app/admin/kanban/page.tsx:109-114) also lets
administrators see every column, and shows nothing when the profile or its tier
list is missing. The model follows the board's check (`AdminBoard.CanSeeColumn`).

## Model

| member | source | states |
|---|---|---|
| Kanban.QualificationToColumnBijective | src/lib/kanban.ts:15-21 | the tier-to-column table is injective, and reading it backwards inverts it in both directions |
| Kanban.QualificationEntriesAgree | src/lib/kanban.ts:15-21 | the table's entry list agrees with the table, contains every tier, and lists each tier once |
| Kanban.ColumnOrderComplete | src/lib/kanban.ts:7-30 | the render order has five entries, contains every column and repeats none; no two columns share a display name |
| Kanban.ColumnListed | src/lib/kanban.ts:24-30 | every column appears in the render order |
| Kanban.NormalizeAcrossDollar | src/lib/kanban.ts:114-117 | lower-casing, removing whitespace and expanding "k"/"mil" act separately on the text on each side of a '$' |
| Kanban.ParseRevenue | src/lib/kanban.ts:112-149 | the amount is 0 or one of the literal amounts of the checks, never negative; it is 0 for the empty label and for any label whose normalised form contains none of "menosde", "entre", "maisde" |
| Kanban.LessThanShadowed | src/lib/kanban.ts:120-125 | any text containing "15000" or "50000" contains "5000", so the two later "menos de" checks never decide |
| Kanban.BetweenShadowed | src/lib/kanban.ts:128-138 | any text containing "20000" and "50000" satisfies the first "entre" check |
| Kanban.ParseRevenueDeadChecks | src/lib/kanban.ts:112-149 | the parser gives the same amount as a parser without the three checks that can never fire |
| Kanban.CabinLadder | src/lib/kanban.ts:178-190 | the tier's rank equals the number of cutoffs 15000, 30000, 50000, 100000 that the amount has reached |
| Kanban.HotelLadder | src/lib/kanban.ts:192-202 | the tier's rank is one plus the number of cutoffs 50000, 100000, 300000 reached, so COMUNIDADE is never produced |
| Kanban.FallbackQualification | src/lib/kanban.ts:204-211 | the tier is COMUNIDADE exactly for "Menos de R$ 5 mil"; otherwise it is the table's tier for a listed label and RUIM for any other label |
| Kanban.Classify | src/lib/kanban.ts:160-225 | the column is always the table's column for the tier; a community source forces COMUNIDADE; otherwise the cabin or "Outros" type follows the cabin ladder, the hotel type the hotel ladder, and any other type takes the fallback table's tier of the label (RUIM when absent, COMUNIDADE for the lowest label), all on the trimmed fields |
| Kanban.CommunityOverride | src/lib/kanban.ts:166-168 | a source that lower-cases to "comunidade" gives (COMUNIDADE, "Comunidade") whatever the lodging type and revenue |
| Kanban.CabinLadderMonotone | src/lib/kanban.ts:186-190 | a larger amount never gives a lower tier on the cabin ladder |
| Kanban.HotelLadderMonotone | src/lib/kanban.ts:199-202 | a larger amount never gives a lower tier on the hotel ladder, and that ladder never gives COMUNIDADE |
| Kanban.LadderCutoffsInclusive | src/lib/kanban.ts:186-202 | an amount exactly at a cutoff gets the tier that the cutoff opens |
| Kanban.ClassifyMonotone | src/lib/kanban.ts:171-202 | for the cabin, "Outros" and hotel types a lead with a larger parsed revenue never gets a lower tier, and a hotel is never COMUNIDADE |
| Kanban.CanSeeQualification | src/lib/kanban.ts:230-235 | true exactly when the tier occurs in the visible list |
| Kanban.ColumnCountsSum | src/lib/kanban.ts:240-259 | the five columns' counts add up to the number of items |
| Kanban.GroupByColumn | src/lib/kanban.ts:240-259 | every column is a key; each column holds, in input order, exactly the items classified into it; the sizes add up to the input length |
| RevenueLabels.IntakeLabelValues | src/lib/kanban.ts:112-149 | the six intake choices parse to 2500, 12500, 0, 0, 0 and 600000 |
| RevenueLabels.HotelIntakeOutcomes | src/lib/kanban.ts:192-202 | without a community source a hotel lead is RUIM for the first five intake choices and ULTRA for "Mais de R$ 500 mil" |
| RevenueLabels.HotelFiftyToHundredIsLevelOne | src/lib/kanban.ts:192-202 | a hotel earning "Entre R$ 50 a R$ 100 mil" is classified (RUIM, "Nível 1") |
| RevenueLabels.CabinIntakeOutcomes | src/lib/kanban.ts:178-190 | a cabin, chalet or "Outros" lead is COMUNIDADE for the first five intake choices and ULTRA for the top one |
| RevenueLabels.IntakeTableTiers | src/lib/kanban.ts:53-64 | the label table gives COMUNIDADE, RUIM, MEDIO, QUALIFICADO, ULTRA, ULTRA for the six intake choices |
| RevenueLabels.OtherOutcome | src/lib/kanban.ts:204-215 | a lead of any other lodging type takes the fallback tier of its label |
| RevenueLabels.OtherTypeIntakeOutcomes | src/lib/kanban.ts:204-215 | for any other lodging type, including none, the six intake choices give COMUNIDADE, RUIM, MEDIO, QUALIFICADO, ULTRA, ULTRA |
| Strings.ToLower | src/lib/kanban.ts:114 | lower-casing keeps the length and lowers each character |
| Strings.ToLowerIdempotent | src/components/LeadFilters.tsx:394-395 | lower-casing twice is lower-casing once |
| Strings.StripSpaces | src/lib/kanban.ts:114 | the result is the input with every whitespace character dropped: the remaining characters in their order, repetitions kept |
| Strings.ReplaceAllSeparator | src/lib/kanban.ts:117 | a character the pattern does not use splits the replacement into the parts before and after it |
| Strings.ContainsLower | src/components/LeadFilters.tsx:393-397 | a case-sensitive occurrence is still an occurrence after lower-casing both sides |
| Strings.Trim | src/lib/kanban.ts:171-172 | the result is a window of the input with only whitespace outside it, and it neither starts nor ends with whitespace |
| Strings.TrimBlank | src/components/UserFormModal.tsx:80 | a text trims to empty exactly when it is all whitespace |
| Strings.Utf16Length | src/components/ChangePasswordModal.tsx:29 | the length in code units lies between the number of characters and twice that number |
| Strings.LexLessTotal | src/components/LeadFilters.tsx:430-443 | of two different strings one is smaller than the other, so the date bounds compare every pair of days |
| Leads.StatusCountsSum | src/app/sdr/kanban/page.tsx:127-131 | the six stage counts plus the count of leads without a stage equal the number of leads |
| Leads.UpdateById | src/app/admin/kanban/page.tsx:120-122 | the list keeps its length; the leads carrying the id are transformed and every other lead is unchanged |
| Leads.UpdateUnknownId | src/app/sdr/kanban/page.tsx:171 | an update for an id that no lead carries changes nothing |
| Leads.SetStatusKeepsIds | src/app/sdr/kanban/page.tsx:143-145 | setting a stage keeps every lead's id in place |
| Leads.SetStatusBack | src/app/sdr/kanban/page.tsx:143-145 | with unique ids, putting back the old stage after setting a new one restores the list |
| Leads.RemoveById | src/app/sdr/kanban/page.tsx:92 | the result keeps the list's order and holds exactly the leads without the id |
| Leads.FindById | src/app/sdr/kanban/page.tsx:161-162 | nothing is found exactly when no lead carries the id; a found lead is in the list and carries the id |
| Leads.FindUnique | src/app/admin/kanban/page.tsx:178 | with unique ids the lead found is the one carrying the id |
| Leads.UniqueIdFilter | src/app/admin/kanban/page.tsx:178-181 | with unique ids exactly one lead carries the id of a listed lead |
| Leads.DragEnd | src/app/sdr/kanban/page.tsx:133-145 | a drop outside any column, or back at its start, changes nothing; otherwise exactly the dragged lead takes the destination column's stage |
| LeadFilters.FilterLeads | src/components/LeadFilters.tsx:387-447 | the filtered list is never longer than the input |
| LeadFilters.FilterLeadsSpec | src/components/LeadFilters.tsx:391-446 | the result keeps the input's order and holds exactly the leads that pass every active test |
| LeadFilters.NoFiltersKeepAll | src/components/LeadFilters.tsx:391-446 | with every field empty the input comes back unchanged |
| LeadFilters.NameSearchIgnoresCase | src/components/LeadFilters.tsx:393-397 | the name search gives the same answer on lower-cased inputs, and an exact substring always matches |
| LeadFilters.TypeIsCaseSensitive | src/components/LeadFilters.tsx:401-405 | the lower-cased hotel label does not select hotel leads |
| LeadFilters.CaselessFieldSpec | src/components/LeadFilters.tsx:408-419 | a missing origin or source fails an active filter; the comparison ignores case; an exact value matches |
| LeadFilters.ColumnNameNotButton | src/components/LeadFilters.tsx:158-162 | no column name equals a classification button's id |
| LeadFilters.ButtonsMatchNothing | src/components/LeadFilters.tsx:422-427 | with a classification button selected, no lead passes the filter |
| LeadFilters.DateBoundsInclusive | src/components/LeadFilters.tsx:430-443 | a lead created on either bound day passes that bound |
| LeadFilters.DateBoundsExclude | src/components/LeadFilters.tsx:430-443 | a lead created before the start day or after the end day is filtered out |
| LeadFilters.Toggle | src/components/LeadFilters.tsx:93 | the field becomes empty when the current value is chosen again (or the value is empty), and otherwise becomes the chosen value |
| LeadFilters.ToggleTwice | src/components/LeadFilters.tsx:93 | two presses of one button restore the field exactly when it was off or already on that value |
| LeadFilters.ToggleOrigem | src/components/LeadFilters.tsx:92-104 | only the origin changes, by the toggle rule |
| LeadFilters.ToggleFonte | src/components/LeadFilters.tsx:106-118 | only the source changes, by the toggle rule |
| LeadFilters.ToggleClassificacao | src/components/LeadFilters.tsx:120-132 | only the classification changes, by the toggle rule |
| LeadFilters.SetSearch | src/components/LeadFilters.tsx:53-64 | the search term becomes the typed value and every other filter field is unchanged |
| LeadFilters.SetTipoHospedagem | src/components/LeadFilters.tsx:66-77 | the lodging type becomes the chosen value, set rather than toggled, and every other filter field is unchanged |
| LeadFilters.SelectDates | src/components/LeadFilters.tsx:79-90 | each end of the chosen range becomes the start and end day, a missing end becomes "" (that bound off), and every other filter field is unchanged |
| LeadFilters.ClearFilters | src/components/LeadFilters.tsx:134-142 | all seven fields become empty, so every list passes unfiltered |
| AdminBoard.VisibleLeadsSpec | src/app/admin/kanban/page.tsx:91-101 | a lead shows exactly when it is in the chosen view ("todos": all, "nao_atribuidos": no owner, otherwise owned by that id) and passes the filter bar; the result keeps the view's order |
| AdminBoard.InactiveFiltersShowView | src/app/admin/kanban/page.tsx:199 | without an active filter the board shows the whole view |
| AdminBoard.ButtonCountsMatchViews | src/app/admin/kanban/page.tsx:197-198 | the counts on the view buttons are the sizes of the unfiltered views |
| AdminBoard.SdrAndUnassignedDisjoint | src/app/admin/kanban/page.tsx:299 | an SDR's count and the unassigned count never add up to more than the total |
| AdminBoard.EntryLookup | src/app/admin/kanban/page.tsx:111-112 | the reverse lookup in the table entries finds the column's own tier |
| AdminBoard.CanSeeColumn | src/app/admin/kanban/page.tsx:109-114 | true exactly when a profile is present and is an administrator, or has a tier list containing the column's tier |
| AdminBoard.Assign | src/app/admin/kanban/page.tsx:136-147 | only the leads carrying the id change: they get the SDR as owner and stage MEUS_LEADS |
| AdminBoard.Unassign | src/app/admin/kanban/page.tsx:154-163 | only the leads carrying the id change: they lose both owner and stage |
| AdminBoard.PullToMe | src/app/admin/kanban/page.tsx:116-126 | without a profile nothing changes; otherwise it is an assignment to the current user |
| AdminBoard.AssignIdempotent | src/app/admin/kanban/page.tsx:139-141 | assigning twice to the same SDR is assigning once |
| AdminBoard.ReassignOverrides | src/app/admin/kanban/page.tsx:165-174 | a reassignment overrides the earlier assignment |
| AdminBoard.UnassignAfterAssign | src/app/admin/kanban/page.tsx:154-163 | unassigning after an assignment is the same as unassigning at once |
| AdminBoard.UnassignedCountMoves | src/app/admin/kanban/page.tsx:198 | unassigning never lowers the unassigned count, and assigning to an SDR never raises it |
| AdminBoard.DeleteOptimistic | src/app/admin/kanban/page.tsx:178-181 | the saved lead is absent exactly when no lead carries the id, and otherwise carries it; the optimistic list keeps order and holds exactly the other leads |
| AdminBoard.DeleteRollback | src/app/admin/kanban/page.tsx:189-191 | after a failure the saved lead is appended after the current list |
| AdminBoard.DeleteRollbackRestores | src/app/admin/kanban/page.tsx:176-195 | with unique ids a failed deletion restores the same multiset of leads |
| AdminBoard.DeleteRollbackReorders | src/app/admin/kanban/page.tsx:176-195 | the order is not restored: deleting the first of two leads and rolling back puts it last |
| SdrBoard.TargetSdrId | src/app/sdr/kanban/page.tsx:63 | an SDR sees their own leads; an administrator sees the chosen SDR's leads, or their own when none is chosen |
| SdrBoard.StagesInverse | src/app/sdr/kanban/page.tsx:160-199 | the right arrow moves exactly the first three stages and the left arrow exactly the last three; each undoes the other |
| SdrBoard.StepLead | src/app/sdr/kanban/page.tsx:160-199 | an unknown id sends nothing; a found lead always sends its stepped stage, so a stage with a step moves the lead and a stage without one sends nothing and changes nothing; a sent stage is set on the leads carrying the id |
| SdrBoard.Advance | src/app/sdr/kanban/page.tsx:160-178 | an unknown id sends nothing; a found lead in MEUS_LEADS, QUALIFICACAO or PERTO_REUNIAO moves to the next stage and that stage is sent; any other stage sends nothing and changes nothing |
| SdrBoard.Retreat | src/app/sdr/kanban/page.tsx:181-199 | an unknown id sends nothing; a found lead in QUALIFICACAO, PERTO_REUNIAO or ENCAMINHADO_REUNIAO moves to the previous stage and that stage is sent; any other stage sends nothing and changes nothing |
| SdrBoard.AdvanceThenRetreat | src/app/sdr/kanban/page.tsx:164-198 | with unique ids, right then left restores the list for a lead in one of the first three stages |
| SdrBoard.RetreatThenAdvance | src/app/sdr/kanban/page.tsx:164-198 | with unique ids, left then right restores the list for a lead in one of the last three stages |
| SdrBoard.ArrowsStopAtEnds | src/app/sdr/kanban/page.tsx:164-170 | an arrow that has no step for the lead's stage sends nothing and leaves the list as it is |
| SdrBoard.BucketSpec | src/app/sdr/kanban/page.tsx:108-124 | a card is in a column exactly when it passes the filters and has that stage; no card is in two columns |
| SdrBoard.BucketWithinTotal | src/app/sdr/kanban/page.tsx:108-131 | a column never shows more cards than its header total |
| SdrBoard.UnfilteredBucketIsTotal | src/app/sdr/kanban/page.tsx:108-131 | with no active filter each column shows as many cards as its header total |
| SdrBoard.HeaderTotalsBounded | src/app/sdr/kanban/page.tsx:127-131 | the five header totals add up to at most the number of leads loaded |
| SdrBoard.DragLandsInColumn | src/app/sdr/kanban/page.tsx:133-145 | after a drag to another place, the dragged lead shows in the destination column |
| SdrBoard.ReturnLead | src/app/sdr/kanban/page.tsx:90-92 | the lead leaves the list at once; every other lead stays, in order |
| CommunityBoard.LoadedLeadsAreCommunity | src/app/sdr/comunidade/page.tsx:57-59 | the board loads exactly the fetched leads whose source lower-cases to "comunidade", and each of them classifies into the "Comunidade" column |
| CommunityBoard.RefetchExactWithinLoad | src/app/sdr/comunidade/page.tsx:124 | the case-sensitive refetch keeps a subset of what the load keeps |
| CommunityBoard.CapitalisedSourceDropsOnRefetch | src/app/sdr/comunidade/page.tsx:139 | a lead whose source is "Comunidade" is loaded but dropped by the refetch |
| CommunityBoard.MarkSold | src/app/sdr/comunidade/page.tsx:115-118 | only the leads carrying the id change, to stage VENDEU |
| CommunityBoard.Reopen | src/app/sdr/comunidade/page.tsx:130-133 | only the leads carrying the id change, to stage MEUS_LEADS |
| CommunityBoard.ReopenAfterMarkSold | src/app/sdr/comunidade/page.tsx:115-143 | with unique ids, reopening an open lead just marked sold restores the list |
| CommunityBoard.MoveShiftsTotals | src/app/sdr/comunidade/page.tsx:86-101 | moving the only lead with an id from one stage to another moves one unit between the two header totals |
| CommunityBoard.MarkSoldShiftsTotals | src/app/sdr/comunidade/page.tsx:86-87 | marking an open lead sold moves it from the open total to the sold total |
| CommunityBoard.UpdatesStayOnBoard | src/app/sdr/comunidade/page.tsx:89-146 | drags onto the two columns, sales, reopenings and returns keep every lead in one of the two stages |
| CommunityBoard.ColumnsDisjoint | src/app/sdr/comunidade/page.tsx:82-83 | the open and sold columns never share a card |
| Dashboard.SourcesAgree | src/app/admin/dashboard/page.tsx:28-30 | the dashboard's community test is the classifier's community override, and no lead is both community and site |
| Dashboard.ComputeMetrics | src/app/admin/dashboard/page.tsx:80-141 | assigned plus unassigned is the total; the general, site and community totals, their assigned counts and their lost counts each add up to the overall figure; waiting, in progress and lost add up to at most the total |
| Dashboard.MetricsAddUp | src/app/admin/dashboard/page.tsx:81-112 | the same identities stated over the list counts themselves |
| Dashboard.AssignedSplit | src/app/admin/dashboard/page.tsx:82-83 | every lead is counted as assigned or as unassigned, never both |
| Dashboard.GroupsExclusive | src/app/admin/dashboard/page.tsx:89-108 | every lead is in exactly one of the general, site and community groups |
| Dashboard.GroupsSplit | src/app/admin/dashboard/page.tsx:92-112 | any count over the three groups adds up to the count over all leads |
| Dashboard.InProgressSplit | src/app/admin/dashboard/page.tsx:85 | the in-progress count is the qualification count plus the near-meeting count |
| Dashboard.StagesBounded | src/app/admin/dashboard/page.tsx:84-86 | waiting, in progress and lost add up to at most the number of leads |
| Dashboard.TallySnoc | src/app/admin/dashboard/page.tsx:177-202 | counting one more lead extends an SDR's reference tally by the loop body's increments |
| Dashboard.TallyIdentities | src/app/admin/dashboard/page.tsx:177-202 | per SDR, the general and community totals add up to the total; in progress is qualification plus near-meeting plus the community leads in those stages; the stage counts stay within the total |
| Dashboard.SdrOrder | src/app/admin/dashboard/page.tsx:160-175 | the map's keys hold each listed SDR's id once, and nothing else |
| Dashboard.ReferenceRows | src/app/admin/dashboard/page.tsx:160-202 | one reference bar per listed SDR |
| Dashboard.RegisterSdrs | src/app/admin/dashboard/page.tsx:160-175 | every listed SDR gets an empty entry under the name of the last profile with that id, and no other key exists |
| Dashboard.CountInto | src/app/admin/dashboard/page.tsx:177-202 | counting one lead never adds or removes an SDR |
| Dashboard.CountIntoStep | src/app/admin/dashboard/page.tsx:177-202 | if every entry is the reference tally of the leads so far, it stays so after one more lead |
| Dashboard.CountLeads | src/app/admin/dashboard/page.tsx:177-202 | after the loop every registered SDR's entry is the reference tally of the leads they own, and the keys are unchanged |
| Dashboard.InsertByTotal | src/app/admin/dashboard/page.tsx:204 | insertion adds exactly the new bar |
| Dashboard.InsertSorted | src/app/admin/dashboard/page.tsx:204 | inserting into a list sorted by total keeps it sorted |
| Dashboard.SortByTotal | src/app/admin/dashboard/page.tsx:204 | the result is non-increasing by total and is a permutation of the input |
| Dashboard.LeadsPerSdr | src/app/admin/dashboard/page.tsx:144-205 | the chart holds exactly the reference bars, one per listed SDR, sorted by total from highest to lowest |
| Dashboard.StatusData | src/app/admin/dashboard/page.tsx:208-215 | the slices keep their fixed order and are exactly the status slices with a positive value |
| Dashboard.SumWithoutEmpty | src/app/admin/dashboard/page.tsx:215 | dropping the empty slices does not change the sum |
| Dashboard.ColumnSlicesSum | src/app/admin/dashboard/page.tsx:218-230 | the five per-column counts add up to the number of leads |
| Dashboard.ColumnSliceListed | src/app/admin/dashboard/page.tsx:219-225 | every column has its slice among the per-column slices |
| Dashboard.QualificacaoData | src/app/admin/dashboard/page.tsx:218-239 | the slices add up to the number of leads; each is a column's count and is positive; a column appears exactly when some lead classifies into it; the slices keep the column order |
| LeadCache.GetCached | src/lib/leads.ts:58-65 | a hit exactly when the key is stored and younger than 30000 ms (strictly); a hit returns the stored data and keeps the cache; a miss removes the key |
| LeadCache.SetCache | src/lib/leads.ts:67-69 | the key holds the data stamped with the current time; every other key is unchanged |
| LeadCache.SetThenGet | src/lib/leads.ts:49-69 | a stored value is read back exactly while less than 30000 ms have passed |
| LeadCache.ReadThrough | src/lib/leads.ts:90-109 | a hit is returned as is; after a miss a fetched value is returned and then served from the cache; a failed fetch returns nothing and leaves the key absent |
| LeadCache.Invalidate | src/lib/leads.ts:71-81 | no pattern or an empty one clears everything; otherwise exactly the keys containing the pattern are dropped, and the rest keep their values |
| LeadCache.LeadsKeysMatchLeads | src/lib/leads.ts:91 | both the all-leads key and every SDR's leads key contain "leads" |
| LeadCache.ProfileKeysMissLeads | src/lib/leads.ts:318-353 | the SDR-list and user-list keys do not contain "leads" |
| LeadCache.LeadMutationInvalidates | src/lib/leads.ts:159 | a lead mutation drops the all-leads list and every SDR's list and keeps the profile lists |
| LeadCache.ProfileKeysMatch | src/lib/leads.ts:398-399 | "users" matches only the user-list key and "sdrs" only the SDR-list key among the fixed keys |
| LeadCache.SdrPrefixMissesProfiles | src/lib/leads.ts:116 | the SDR-key prefix contains neither "users" nor "sdrs" |
| LeadCache.SdrKeyAgainstProfiles | src/lib/leads.ts:116 | an SDR's key contains "users" or "sdrs" exactly when the SDR id does |
| LeadCache.ProfileChangeInvalidates | src/lib/leads.ts:398-399 | a profile change drops both profile lists, keeps the all-leads list, and keeps an SDR's list exactly when the SDR id contains neither pattern |
| LeadCache.UuidListsSurviveProfileChange | src/lib/leads.ts:436-437 | with UUID ids, every SDR's list survives a profile change |
| UserForm.DefaultVisibleSpec | src/components/UserFormModal.tsx:63 | the default columns are every tier except COMUNIDADE |
| UserForm.LoadForm | src/components/UserFormModal.tsx:51-66 | the password is always empty; a new user gets a blank form with the SDR role and the four non-community tiers; an edited user's name, email (or empty), role and tier list (or none) are loaded |
| UserForm.ToggleQualification | src/components/UserFormModal.tsx:68-74 | the tier's membership flips and no other tier's changes; a present tier is removed leaving the rest in order; an absent tier is appended |
| UserForm.ToggleQualificationTwice | src/components/UserFormModal.tsx:68-74 | two toggles restore which tiers are visible; the list itself is restored when the tier was absent, and otherwise the tier moves to the end |
| UserForm.Submit | src/components/UserFormModal.tsx:76-118 | an accepted form makes an update call when editing and a create call when creating, carrying the form's fields as typed |
| UserForm.TrimNonBlank | src/components/UserFormModal.tsx:80 | a field trims to non-empty exactly when some character is not whitespace |
| UserForm.SubmitNameError | src/components/UserFormModal.tsx:80-83 | the name error is reported exactly when the name is blank |
| UserForm.SubmitEmailError | src/components/UserFormModal.tsx:85-89 | the email error is reported exactly when creating with a non-blank name and a blank email |
| UserForm.SubmitPasswordColumnErrors | src/components/UserFormModal.tsx:90-99 | the password error is reported exactly when creating with the earlier checks passed and fewer than six code units; the column error exactly when the earlier checks pass and no column is chosen |
| UserForm.SubmitAccepted | src/components/UserFormModal.tsx:80-118 | the form is submitted exactly when every check that applies passes |
| UserForm.ErrorAfterSubmit | src/components/UserFormModal.tsx:76-124 | a refused form shows the error of its check; once the call is made, a success leaves no error and a failure shows the save error |
| UserForm.ErrorAfterSubmitSpec | src/components/UserFormModal.tsx:76-124 | the form ends without an error exactly when every check that applies passes and the call succeeds |
| UserForm.EditIgnoresCredentials | src/components/UserFormModal.tsx:85-94 | when editing, the email and password fields do not affect the outcome |
| UserForm.NameSentUntrimmed | src/components/UserFormModal.tsx:80-109 | the name is checked trimmed but sent as typed, so a name with a leading space is sent with that space |
| UserForm.MissingColumnsBlockSave | src/components/UserFormModal.tsx:56-99 | a stored profile without a tier list loads with none, so saving it unchanged is refused |
| UserForm.BlankNewFormRejected | src/components/UserFormModal.tsx:59-83 | the blank new-user form is refused for its name |
| PasswordForm.Close | src/components/ChangePasswordModal.tsx:52-57 | both fields and the error are cleared |
| PasswordForm.HandleSubmit | src/components/ChangePasswordModal.tsx:25-50 | a call carries the user id and the new password; without a call the fields are kept; a successful call closes the form and a failed one reports the failure |
| PasswordForm.CallIff | src/components/ChangePasswordModal.tsx:29-43 | the call is made exactly when the password has at least six code units, the confirmation matches and a user id is present |
| PasswordForm.ShortBeforeMismatch | src/components/ChangePasswordModal.tsx:29-32 | the short-password error is reported exactly when the password has fewer than six code units, whether or not the confirmation matches |
| PasswordForm.MismatchReported | src/components/ChangePasswordModal.tsx:34-37 | the mismatch error is reported exactly when the password is long enough and differs from the confirmation |
| PasswordForm.MissingUserSilent | src/components/ChangePasswordModal.tsx:39 | without a user id a valid form returns silently, with no call and no error |
| PasswordForm.ResubmitAfterSuccess | src/components/ChangePasswordModal.tsx:43-55 | after a successful change the form is empty, so submitting it again reports a short password |
| PasswordForm.LengthCountsCodeUnits | src/components/ChangePasswordModal.tsx:29 | three emoji count as six code units and pass the length check |
| TransferModal.Close | src/components/TransferLeadsModal.tsx:120-128 | every field returns to its initial value |
| TransferModal.ChooseSource | src/components/TransferLeadsModal.tsx:38-61 | no source clears the leads and the selection; a successful load shows the SDR's leads with nothing selected; a failed load empties the leads but keeps the selection |
| TransferModal.ToggleSelection | src/components/TransferLeadsModal.tsx:63-71 | one id's membership flips and no other id's changes |
| TransferModal.ToggleSelectionTwice | src/components/TransferLeadsModal.tsx:63-71 | toggling an id twice restores the selection |
| TransferModal.FilteredLeads | src/components/TransferLeadsModal.tsx:82-84 | the result keeps the leads' order and holds exactly those whose name contains the search term, ignoring case |
| TransferModal.SearchAgreesWithBoards | src/components/TransferLeadsModal.tsx:82-84 | the dialog's search equals the filter bar's name search |
| TransferModal.SelectAll | src/components/TransferLeadsModal.tsx:73-75 | the selection becomes exactly the ids of the leads the search shows |
| TransferModal.DeselectAll | src/components/TransferLeadsModal.tsx:77-79 | the selection becomes empty |
| TransferModal.SelectAllWithoutSearch | src/components/TransferLeadsModal.tsx:73-84 | with an empty search every loaded lead's id is selected |
| TransferModal.Destination | src/components/TransferLeadsModal.tsx:92 | "unassigned" means no SDR; any other value passes through |
| TransferModal.TransferAllCall | src/components/TransferLeadsModal.tsx:86-93 | the call is made exactly when a source and a destination are chosen; it names the source, and the destination is none exactly for "unassigned" |
| TransferModal.TransferSelectedCall | src/components/TransferLeadsModal.tsx:103-110 | the call is made exactly when the selection is non-empty and a destination is chosen; it carries exactly the selected ids |
| TransferModal.SearchDoesNotNarrowTransfer | src/components/TransferLeadsModal.tsx:104-110 | the search term does not change which ids are transferred |
| TransferModal.FailedLoadKeepsSelection | src/components/TransferLeadsModal.tsx:48-61 | after a failed load the earlier selection is still transferred |
| TransferModal.SourceOptions | src/components/TransferLeadsModal.tsx:171-172 | the source options are exactly the ids of the SDR profiles |
| TransferModal.DestinationOptions | src/components/TransferLeadsModal.tsx:281-292 | "unassigned" comes first, followed by exactly the ids of the SDR profiles other than the source |
| TransferModal.SourceNotADestination | src/components/TransferLeadsModal.tsx:133 | the source SDR is never offered as its own destination |

## Left out

- Network and database calls. Every Supabase query and mutation in `src/lib/leads.ts` is replaced by its outcome. So are `src/lib/auth.ts`, the auth context and the admin-users function. Only the local state change after a call is modelled. `checkLeadExists`, `createLead`, `getLeadsInBin` and `restoreFromBin` are not defined in `src/lib/leads.ts`, so there is nothing of theirs to model.
- Concurrency: the auth timeouts and listeners, and races between an optimistic update and an error-path refetch. Each handler is modelled as one step taken on the list it reads.
- Dates and clocks. Creation days are given as "yyyy-MM-dd" strings, so `new Date(...).toISOString()` is not modelled. The cache receives `now` as an argument, and the fetch is treated as taking no time, so the entry is stamped with the same `now` as the read.
- Sorting by `updated_at` on the SDR board (src/app/sdr/kanban/page.tsx:110-124). Each column is modelled as the filtered leads in list order.
- The conversion-rate percentages built with floating-point division and `toFixed` (src/app/admin/dashboard/page.tsx:97, 105, 113).
- Rendering, loading flags, error messages and `err.message` texts. The model keeps only which error a form reports.
- Full Unicode case folding. `toLowerCase` is modelled on ASCII letters only; "Cabanas e Chalés" is compared exactly and is never lower-cased.
- The JavaScript lookup quirk where a label such as "constructor" finds an inherited member of the table object. The table is modelled as a finite map.
- The tables `FATURAMENTO_CABANAS_OUTROS`, `FATURAMENTO_HOTEL` and `TIPOS_HOSPEDAGEM_PREMIUM`. The code never reads them.
- The two table keys "Menos de R$ 20 mil" and "Mais de R$ 100 mil". The intake form does not offer them, and they are evaluated only through the general `Kanban.FallbackQualification` contract.
- `parseInt(draggableId)`. The dragged lead's id is given as an integer, and the droppable ids are given as stages.
- Lead fields that no modelled operation reads (contact details, notes, timestamps other than the creation day).
- The initial-source effect of the transfer dialog. The selection is modelled as a set, so the order in which `Array.from` lists the ids is not modelled.
- The community board's filter state. It is created without `fonte` and `classificacao` (src/app/sdr/comunidade/page.tsx:25), and those missing fields are modelled as empty strings, which leave the filter off just like `undefined`.
- LeadCache: the source keeps one `Map` of entries of any type. The model has one cache per stored type. Entries of different types never share a key, so this changes nothing that is stated.
- Dashboard.LeadsPerSdr: the relative order of SDRs with equal totals is not stated. Only the sort order by total and the set of bars are stated.
- Dashboard.LastName: it has no contract of its own. The name on each bar is the name of the last listed profile with that id, as `Map.set` leaves it.
