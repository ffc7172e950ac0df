# FbrefAPI scrapers: a verified model of the cleaning core

FbrefAPI scrapes football statistics from fbref.com (football reference) and returns
them as JSON-ready Python dicts. Each scraper class fetches a page, picks tables by
their captions, turns each table into a column dict (header to list of cell texts),
cleans the columns, and reorients the dict into `{'data': [record, …]}`, with one
record per row.

This project models the cleaning core of `scraper/` in Dafny. The HTTP and HTML layer is
not modelled: a page comes in as a sequence of tables, each with its caption and its
rows of cell texts and hrefs. The modules follow the source files:

- `wrappers.dfy` (Wrappers): `Option`, and `Result`, whose errors are the Python exceptions the code can raise (KeyError, IndexError, ValueError, TypeError, AttributeError, UnboundLocalError).
- `lists.dfy` (Lists), `text.dfy` (Text), `values.dfy` (Values): Python lists, `str` and the JSON-like values the cleaners handle. A `Float` keeps its text.
- `dicts.dfy` (Dicts): the insertion-ordered `dict`, modelled as an association list with distinct keys. Assigning to an existing key keeps its position, a new key is appended, and `pop` removes the key.
- `patterns.dfy` (Patterns): the fixed URL regexes `squads/(\w{8})/`, `matches/(\w{8})/`, `comps/(\d+)/` and the like, plus `parse_pattern_from_url`.
- `fbref_scraper.dfy` (FbrefScraper): `scraper/fbref_scraper.py`. Covers table parsing, header suffixes, totals detection, caption-based table selection, the dict key helpers, dtype conversion, `change_dict_orientation`, `format_field`, `clean_team_name` and `clean_gf_ga`.
- `stats_scraper.dfy` (StatsScraper): `scraper/fbref_stats_scraper.py`. Covers the stat-table reader, the column-map pipeline (delete, rename, reorder, convert), the scalar cleaners and the advanced/basic column-map choice.
- `stat_categories.dfy` (StatCategories) and `reassembly.dfy` (Reassembly): what the five stat scrapers share, namely binding stat ids to tables, cleaning every category, and reorienting the categories into one record per row with `meta_data` and `stats`.
- `team_season_stats.dfy`, `team_match_stats.dfy`, `player_season_stats.dfy`, `player_match_stats.dfy`, `all_players_match_stats.dfy`: the five stat scrapers.
- `league_standings.dfy`, `league_seasons.dfy`, `league_season_details.dfy`, `leagues.dfy`, `countries.dfy`, `teams.dfy`, `matches.dfy`, `players.dfy`: the entity scrapers.

Python's in-place dict updates are modelled on values: an operation returns the new
dict. A loop in the source becomes a `method` with a `while` loop, proved equal to a
specification function. The properties are stated about that function.

## Model

| member | source | states |
|---|---|---|
| Dicts.SetItem | scraper/fbref_scraper.py:602 | `d[k] = v` overwrites an existing key in place and appends a new key at the end; every other entry is unchanged |
| Dicts.Pop | scraper/fbref_scraper.py:602 | `d.pop(k)` succeeds exactly for a present key, giving its value and the dict without it, and raises KeyError otherwise |
| Dicts.Project | scraper/fbref_scraper.py:605-630 | the keys of the projection are the listed keys that are present, in the order's order |
| Dicts.GetProject | scraper/fbref_scraper.py:630 | a listed key keeps its value and an unlisted key is dropped, contrary to the docstring's promise of a reordering |
| Dicts.ProjectKeysSubseq | scraper/fbref_scraper.py:630 | the projection's keys are a subsequence of the order |
| Dicts.GetDeleteAll | scraper/fbref_scraper.py:659-664 | deletion drops exactly the listed keys, ignores listed keys that are missing, and keeps every other key with its value |
| Dicts.DeleteAllKeysSubseq | scraper/fbref_scraper.py:659-664 | the keys left after deletion keep their original order |
| Dicts.MapValues | scraper/fbref_scraper.py:741-748 | a key-by-key rewrite keeps the keys in order, gives each key f of its value, and succeeds exactly when f succeeds on every entry |
| FbrefScraper.ParseTableRows | scraper/fbref_scraper.py:430-453 | the kept rows are exactly the table's non-spacer rows, in document order (a subsequence of the rows), each as many times as the table holds it, and no spacer row |
| FbrefScraper.RowData | scraper/fbref_scraper.py:381-428 | one cell list per row, row i's list being row i's cell texts |
| FbrefScraper.FormatFieldNormal | scraper/fbref_scraper.py:784-805 | a formatted header has no blank and no upper-case letter, and formatting it again changes nothing |
| FbrefScraper.FormatFieldPointwise | scraper/fbref_scraper.py:804 | the formatted header is the stripped header, character by character lower-cased with blanks turned into '_' |
| FbrefScraper.AddSuffixToRepeatHeaders | scraper/fbref_scraper.py:349-379 | the loop with its counter dict returns, at each position, the header followed by the number of equal headers before it (nothing for the first) |
| FbrefScraper.SuffixedOfDistinct | scraper/fbref_scraper.py:369-379 | distinct headers come back unchanged |
| FbrefScraper.SuffixedDistinct | scraper/fbref_scraper.py:369-379 | when no header contains a digit, the suffixed headers are pairwise different |
| FbrefScraper.TotalsFrom | scraper/fbref_scraper.py:339-347 | the scan's count lies between the rows already counted and the row count; it fails only with IndexError |
| FbrefScraper.TotalsRowsTrailing | scraper/fbref_scraper.py:339-347 | the count is exactly the run of trailing rows whose first cell contains "Total", and the row before that run is not one; the scan fails only on an empty row it reaches before any other row |
| FbrefScraper.DetectTotalsRows | scraper/fbref_scraper.py:318-347 | the counting loop with its `break` returns the number of trailing totals rows |
| FbrefScraper.SelectRowsPrefix | scraper/fbref_scraper.py:212-221 | after the optional skip of row 0, the rows kept are a prefix; with totals excluded exactly the trailing totals rows go (dropRows ignored, even when 0), otherwise exactly `dropRows` rows (none when it is not positive, all when it is larger) |
| FbrefScraper.Width | scraper/fbref_scraper.py:314 | the number of columns `zip` yields is at most the header length and every data row's length, and 0 without data rows |
| FbrefScraper.WidthIsShortest | scraper/fbref_scraper.py:314 | with data rows, the width is the length of the header row or of some data row, so columns are cut to the shortest row |
| FbrefScraper.Column | scraper/fbref_scraper.py:314-315 | column j holds one string per data row, item i being row i's j-th cell |
| FbrefScraper.ColumnsKeys | scraper/fbref_scraper.py:312-315 | the keys are the first `n` headers, each at its first occurrence |
| FbrefScraper.GetColumns | scraper/fbref_scraper.py:312-315 | a header holds the column of its last occurrence, so a repeated header keeps its first position but the last column's data |
| FbrefScraper.CleanHeaders | scraper/fbref_scraper.py:307-308 | one cleaned header per header |
| FbrefScraper.ConvertRowDataToDict | scraper/fbref_scraper.py:284-316 | IndexError exactly for no rows; a header row alone gives `{}`; every column holds one string per data row; distinct cleaned headers become the keys in order, each with its own column |
| FbrefScraper.GetTableName | scraper/fbref_scraper.py:497-526 | a name exactly for a table with a caption |
| FbrefScraper.GetTableNameStripped | scraper/fbref_scraper.py:518-526 | the name has no whitespace at either end, and a caption without "Table" (or a call keeping it) gives the stripped caption |
| FbrefScraper.TryPattern | scraper/fbref_scraper.py:485-490 | one pattern either leaves the selection alone or appends the table and its new match list, keeping the selection consistent |
| FbrefScraper.ScanTables | scraper/fbref_scraper.py:483-490 | a scan yields a consistent selection (distinct non-empty match lists, picks in document order), or TypeError from a caption-less table |
| FbrefScraper.TablesFromCaption | scraper/fbref_scraper.py:455-495 | None exactly when nothing was picked, otherwise the picked tables in pick order |
| FbrefScraper.FirstTableData | scraper/fbref_ls_scraper.py:93-96 | no table found makes `None[0]` raise TypeError; otherwise the first picked table is parsed |
| FbrefScraper.GetTablesFromCaption | scraper/fbref_scraper.py:480-495 | the nested loops over tables and patterns return what the selection specifies |
| FbrefScraper.TablesErrorAt | scraper/fbref_scraper.py:485 | with at least one pattern, a table without a caption makes the whole call fail with TypeError |
| FbrefScraper.TablesFromCaptionOrder | scraper/fbref_scraper.py:480-495 | tables come back in document order, one per distinct non-empty match list, each one of the inputs |
| FbrefScraper.TableTakenTwice | scraper/fbref_scraper.py:484-490 | the same table is appended twice when two patterns find different matches in its name |
| FbrefScraper.HrefScan | scraper/fbref_scraper.py:548-553 | a found item is non-empty, and with at least one pattern the scan cannot fail |
| FbrefScraper.ItemsOf | scraper/fbref_scraper.py:545-554 | at most one item per row, so never more items than rows; with a pattern it cannot fail |
| FbrefScraper.ItemsOfEveryRow | scraper/fbref_scraper.py:547-553 | when every row has an item, there is exactly one item per row, in row order |
| FbrefScraper.RowItem | scraper/fbref_scraper.py:548-553 | the href loop with its `break` returns the first item the row's hrefs give |
| FbrefScraper.ItemsFromRows | scraper/fbref_scraper.py:546-554 | the row loop returns the items of the rows |
| FbrefScraper.GetAllItemsFromTableUrls | scraper/fbref_scraper.py:528-554 | the items of the table's non-spacer rows |
| FbrefScraper.RenameDictKey | scraper/fbref_scraper.py:589-603 | succeeds exactly when the old key is present, otherwise KeyError |
| FbrefScraper.GetRenameDictKey | scraper/fbref_scraper.py:602 | the value moves to the new key, the old key disappears, every other key keeps its value, and a new key goes to the end |
| FbrefScraper.DeleteDictKeys | scraper/fbref_scraper.py:632-664 | the loop removes every listed key that is present and nothing else |
| FbrefScraper.ProcessValue | scraper/fbref_scraper.py:701-707 | a list gives its i-th item (IndexError when too short), a dict keeps its keys, anything else is copied |
| FbrefScraper.ProcessEntries | scraper/fbref_scraper.py:705 | a dict's keys are kept and each value is processed; it fails only with IndexError, and only when some value does |
| FbrefScraper.Records | scraper/fbref_scraper.py:710-712 | n records, or IndexError |
| FbrefScraper.RecordsAt | scraper/fbref_scraper.py:711 | record i is row i of the whole dict, processed |
| FbrefScraper.ChangeDictOrientation | scraper/fbref_scraper.py:708-713 | KeyError without the id column; a result is `{'data': [...]}` |
| FbrefScraper.ChangeDictOrientationLoop | scraper/fbref_scraper.py:666-713 | the loop appending one record per id returns the reorientation |
| FbrefScraper.ChangeDictOrientationTransposes | scraper/fbref_scraper.py:701-713 | with list columns at least as long as the id column, the records are the transpose: one per id, each holding every key in order with its i-th item |
| FbrefScraper.ChangeDictOrientationShortColumn | scraper/fbref_scraper.py:703 | a column shorter than the id column makes the reorientation fail with IndexError |
| FbrefScraper.ToInt | scraper/fbref_scraper.py:775 | None and '' become None; any other success is an integer; failures are ValueError or TypeError |
| FbrefScraper.ToFloat | scraper/fbref_scraper.py:778 | None and '' become None; any other success is a float; failures are ValueError or TypeError |
| FbrefScraper.ConvertListFromStr | scraper/fbref_scraper.py:750-781 | an unknown target returns the input unchanged; 'int' and 'float' convert element by element |
| FbrefScraper.ConvertListFromStrRoundTrip | scraper/fbref_scraper.py:775 | converting the decimal texts of naturals gives the numbers back, with blanks as None and the length kept |
| FbrefScraper.ConvertListFromStrRejects | scraper/fbref_scraper.py:775 | non-numeric, non-blank text makes the int conversion fail |
| FbrefScraper.ConvertedDtypes | scraper/fbref_scraper.py:741-748 | keys and their order are kept, each column converted by its key, and it fails exactly when some column does not convert |
| FbrefScraper.ConvertDictDtypes | scraper/fbref_scraper.py:715-748 | the loop over the keys returns the converted dict |
| FbrefScraper.GetConvertedDtypes | scraper/fbref_scraper.py:743-747 | each column holds ints for an int key (even one also listed as float), floats for a float key, and is unchanged otherwise |
| FbrefScraper.AbbrevLength | scraper/fbref_scraper.py:831 | the abbreviation matched by `^[a-z]{2,3}` is 3, 2 or 0 characters long, all lower-case |
| FbrefScraper.CleanTeamNameProperties | scraper/fbref_scraper.py:807-836 | a cleaned name never contains '-', and a name with neither an abbreviation nor a dash is left alone |
| FbrefScraper.CleanTeamNameDropsLastPart | scraper/fbref_scraper.py:834-835 | `a-b` becomes `a`: the last dash-separated part is dropped |
| FbrefScraper.CleanTeamNameDropsAbbrev | scraper/fbref_scraper.py:831-832 | a 3-letter lower-case prefix, or a 2-letter one before a name not starting in lower case, is removed |
| FbrefScraper.ShootoutAt | scraper/fbref_scraper.py:864 | a match of `(\d+)\s*\((\d+)\)` at a position yields a digit run |
| FbrefScraper.CleanGfGa | scraper/fbref_scraper.py:838-871 | the result is the input unchanged or a run of digits |
| FbrefScraper.CleanGfGaOfShootout | scraper/fbref_scraper.py:864-867 | "X (Y)", with any blanks before the parenthesis, gives "X" |
| FbrefScraper.CleanGfGaPlain | scraper/fbref_scraper.py:869-870 | a score without a parenthesis is returned unchanged |
| FbrefScraper.GetLeagueTypeAdv | scraper/fbref_scraper.py:873-902 | the registry entry's `has_adv_stats` and `comp_type`, and None exactly when the entry or either field is missing |
| FbrefScraper.FormatFieldTwice | scraper/fbref_scraper.py:784-805 | formatting a header is idempotent |
| FbrefScraper.FormatFieldChars | scraper/fbref_scraper.py:804 | every character of a formatted header is neither a blank nor upper case and is left alone by formatting again |
| FbrefScraper.LabelsOfOneHeader | scraper/fbref_scraper.py:369-379 | two repeats of one header get different suffixes |
| FbrefScraper.LabelsOfTwoHeaders | scraper/fbref_scraper.py:369-379 | suffixed labels of two different digit-free headers never collide |
| FbrefScraper.ColumnsShape | scraper/fbref_scraper.py:284-316 | no rows give an empty dict; every column has one entry per row; distinct headers are the keys in order, each holding its column |
| FbrefScraper.ScanPatterns | scraper/fbref_scraper.py:480-493 | scanning one table name against the patterns keeps the selection consistent |
| FbrefScraper.FirstShootout | scraper/fbref_scraper.py:864 | a shoot-out match found from a position is all digits |
| FbrefScraper.ShootoutAtRuns | scraper/fbref_scraper.py:864-867 | "x (y)" with digit runs x and y gives x |
| StatsScraper.SameWidth | scraper/fbref_stats_scraper.py:183-186 | the kept rows are exactly the rows with as many cells as the header |
| StatsScraper.StatTableRows | scraper/fbref_stats_scraper.py:153-187 | IndexError exactly when the table has no header row at the requested position; otherwise the header row (row 1 when skipping, else row 0) first, then exactly the later rows as wide as it |
| StatsScraper.StatTableRowsInOrder | scraper/fbref_stats_scraper.py:183-186 | the rows after the header keep their document order |
| StatsScraper.ParseStatTableRows | scraper/fbref_stats_scraper.py:173-187 | the loop appending same-width rows returns the stat rows |
| StatsScraper.SameWidthLoop | scraper/fbref_stats_scraper.py:183-186 | the row loop keeps exactly the data rows as wide as the header, in order |
| StatsScraper.KeepWidth | scraper/fbref_stats_scraper.py:143-148 | the kept rows are exactly those of the given width, never more than the input, and a first row of that width stays first |
| StatsScraper.DropUnevenRows | scraper/fbref_stats_scraper.py:143-148 | collecting the positions of rows whose length differs from the first row's and leaving them out keeps exactly the rows as long as the first |
| StatsScraper.StatRowsKept | scraper/fbref_stats_scraper.py:133-148 | the rows handed on are non-empty and all as long as the first |
| StatsScraper.StatTableDataRectangular | scraper/fbref_stats_scraper.py:105-150 | the parsed stat table is rectangular: every column has one entry per kept data row, and with distinct cleaned headers every header is a key, in order |
| StatsScraper.GetAllItemsFromStatTableUrls | scraper/fbref_stats_scraper.py:189-217 | the row loop over the stat rows returns their items |
| StatsScraper.StatTableItemsBound | scraper/fbref_stats_scraper.py:208-217 | with a pattern, once the rows are read the items cannot fail and there is at most one per kept row, header included |
| StatsScraper.CleanPlayerPosition | scraper/fbref_stats_scraper.py:431-449 | AttributeError exactly on a non-string; text without a comma is returned as it is, text with one becomes the list of its comma-separated parts |
| StatsScraper.CleanPlayerPositionJoin | scraper/fbref_stats_scraper.py:446-447 | the positions of a text with a comma are at least two and joined with ',' give the text back |
| StatsScraper.CleanPlayerAge | scraper/fbref_stats_scraper.py:451-473 | AttributeError exactly on a non-string; otherwise the text before the first '-' (the whole text when there is none) |
| StatsScraper.CleanPlayerMin | scraper/fbref_stats_scraper.py:475-491 | AttributeError exactly on a non-string; the result has no comma, is no longer than the input, and a text without commas is unchanged |
| StatsScraper.ApplyCleaner | scraper/fbref_stats_scraper.py:413-422 | every cleaner of the map succeeds exactly on strings, and all but the position cleaner return a string |
| StatsScraper.CleanerOf | scraper/fbref_stats_scraper.py:413-422 | a column has a cleaner exactly when it is one of the eight names of the cleaning map |
| StatsScraper.CleanStatDictColumns | scraper/fbref_stats_scraper.py:398-429 | the loop over the cleaning map returns the cleaned columns |
| StatsScraper.GetCleanedColumns | scraper/fbref_stats_scraper.py:424-429 | same keys in the same order; a mapped column that is present is cleaned item by item and keeps its length; every other column is unchanged |
| StatsScraper.GetAdvOrNadvCmap | scraper/fbref_stats_scraper.py:493-516 | the advanced map exactly when there are strictly more categories than the threshold |
| StatsScraper.DeleteSubStatDictKeys | scraper/fbref_stats_scraper.py:277-302 | KeyError exactly when the stat id is missing from the column map |
| StatsScraper.ChangeNameSubStatDictKeys | scraper/fbref_stats_scraper.py:304-334 | KeyError exactly when the stat id is missing from the column map |
| StatsScraper.RenameKeysNeverFail | scraper/fbref_stats_scraper.py:329-333 | iterating over a snapshot of the keys, every key still to be visited is present, so no rename raises KeyError |
| StatsScraper.GetRenameKeys | scraper/fbref_stats_scraper.py:329-333 | with new, distinct targets, a visited mapped key is gone and its target holds its value; every other key keeps its value |
| StatsScraper.GetChangeName | scraper/fbref_stats_scraper.py:328-334 | each mapped key's value moves to its target, the mapped key disappears, and every unmapped key keeps its value |
| StatsScraper.RenameSubStatDictKeys | scraper/fbref_stats_scraper.py:329-334 | the loop over the key snapshot returns the renames in key order |
| StatsScraper.ReorderSubStatDictKeys | scraper/fbref_stats_scraper.py:336-362 | KeyError exactly when the stat id is missing; the keys are a subsequence of the category's final order |
| StatsScraper.ConvertSubStatDictKeysDtypes | scraper/fbref_stats_scraper.py:364-396 | KeyError for a missing stat id; conversion keeps the keys in order |
| StatsScraper.DeleteRenameOrderConvertKeys | scraper/fbref_stats_scraper.py:240-275 | the pipeline runs delete, rename, reorder, convert; it fails only on a column that does not convert; its keys are a subsequence of the final order; a dropped column that no rename targets never survives; and an untouched listed column holds its converted original data |
| StatsScraper.ConvertedDtypesErrors | scraper/fbref_scraper.py:775-778 | a conversion fails only with ValueError (text that is not a number) or TypeError (a value that is not text) |
| StatCategories.GetAddIdColumns | scraper/fbref_team_season_stats_scraper.py:300-302 | each id column holds the ids its patterns extract from the stat rows (the last one wins when two share a name); every other column is the parsed table's |
| StatCategories.GetAddTwoIdColumns | scraper/fbref_player_season_stats_scraper.py:166-172 | with two differently named id columns, each holds the ids its patterns extract and every other column is the parsed table's |
| StatCategories.AddTwoIdColumns | scraper/fbref_player_season_stats_scraper.py:166-172 | two id columns are two assignments, in order |
| StatCategories.ParseAll | scraper/fbref_team_season_stats_scraper.py:299-302 | one parse result per table, table j parsed into its category |
| StatCategories.BindUpToShape | scraper/fbref_team_season_stats_scraper.py:299-303 | binding succeeds only with no more tables than stat ids; with distinct ids, table j is stored under stat id j, in table order |
| StatCategories.BindTablesShape | scraper/fbref_team_season_stats_scraper.py:299-303 | the stat ids bound are the first ids, one per table, and each holds its table's category |
| StatCategories.BindStatTables | scraper/fbref_team_season_stats_scraper.py:297-304 | the `enumerate` loop storing each parsed table under `stat_ids[i]` returns the binding, IndexError once the ids run out |
| StatCategories.BindStep | scraper/fbref_team_season_stats_scraper.py:303 | one iteration stores the table under its stat id, or the whole binding fails with the table's error or IndexError |
| StatCategories.UpdateUpToShape | scraper/fbref_team_season_stats_scraper.py:144-147 | after k in-place updates the keys keep their order, the first k categories hold their new columns and the rest are untouched; the loop gets that far exactly when none of the first k steps fails |
| StatCategories.CleanCategories | scraper/fbref_team_season_stats_scraper.py:144-147 | the cleaning loop, reading each category from the dict as it stands, returns every category cleaned in place |
| StatCategories.CleanOneCategory | scraper/fbref_team_season_stats_scraper.py:145-147 | the loop body runs the column cleaners and then the pipeline (the pipeline first in the all-players order) |
| StatCategories.CleanAt | scraper/fbref_team_season_stats_scraper.py:145-147 | at iteration k the category read is still the original one; its cleaned columns replace it in place, or its error ends the loop |
| StatCategories.CleanAllShape | scraper/fbref_team_season_stats_scraper.py:144-147 | cleaning keeps the stat ids in order, replaces each category by its cleaned columns, and succeeds exactly when every category does |
| Reassembly.RecordOf | scraper/fbref_team_season_stats_scraper.py:202-204 | a record is `{'meta_data': ..., 'stats': ...}` with these two keys in this order |
| Reassembly.Records | scraper/fbref_team_season_stats_scraper.py:199-222 | n records, record i being the merge of row i |
| Reassembly.RowCount | scraper/fbref_team_season_stats_scraper.py:197 | the row count is the length of the reference column; KeyError or TypeError exactly when it cannot be taken |
| Reassembly.Reorient | scraper/fbref_team_season_stats_scraper.py:174-223 | fails exactly when the row count cannot be taken; otherwise `{'data': records}` with one record per row |
| Reassembly.MergeFields | scraper/fbref_team_season_stats_scraper.py:207-221 | the inner loop over a category's columns computes the specified meta map, sub-map and used list |
| Reassembly.MergeRow | scraper/fbref_team_season_stats_scraper.py:200-222 | the loops over the categories and their columns build row i's record |
| Reassembly.MergeRows | scraper/fbref_team_season_stats_scraper.py:199-222 | the outer loop appends one record per row, in row order |
| Reassembly.ReorientStats | scraper/fbref_team_season_stats_scraper.py:192-223 | the method with its three nested loops returns the reorientation |
| Reassembly.FieldsFoldGet | scraper/fbref_team_season_stats_scraper.py:207-221 | over one category: a meta field present takes its indexed value (None on a failed index); an unused stats field present goes into the sub-map (None on failure) and becomes used exactly when indexing succeeds; nothing else changes |
| Reassembly.FieldStepGet | scraper/fbref_team_season_stats_scraper.py:208-221 | one column changes only its own entry: of the meta map for a meta field, of the sub-map and the used list for a stats field not used yet |
| Reassembly.RowFoldUsed | scraper/fbref_team_season_stats_scraper.py:213-221 | the used list holds exactly the stats fields some category supplied successfully, so a failed index does not mark a field used |
| Reassembly.RowStatsKeys | scraper/fbref_team_season_stats_scraper.py:205-206 | every record has a stats sub-map for every category, possibly empty, in the categories' order |
| Reassembly.RowStatsOwnership | scraper/fbref_team_season_stats_scraper.py:213-221 | category k's sub-map holds a field exactly when it is a stats field of that category that no earlier category supplied, and then its indexed value, or None on a failed index |
| Reassembly.RowMetaLastWriter | scraper/fbref_team_season_stats_scraper.py:208-212 | the meta map holds each meta field with the value from the last category that has it (None on a failed index), and no other field |
| Reassembly.SuppliedOnce | scraper/fbref_team_season_stats_scraper.py:213-219 | a stats field supplied successfully by a category is absent from every later category's sub-map |
| Reassembly.RecordShape | scraper/fbref_team_season_stats_scraper.py:202-206 | every record holds a `meta_data` map and a `stats` map with one sub-map per category, in order |
| Reassembly.ProjectedMeta | scraper/fbref_player_season_stats_scraper.py:292 | a projected meta map holds exactly the meta fields some category has, last writer's value, keys in the meta list's order |
| Reassembly.ReorientShape | scraper/fbref_team_season_stats_scraper.py:197-223 | a successful reorientation holds one record per entry of the reference column, record i merging row i of every category, with a stats sub-map per category |
| TeamSeasonStats.GetStatIds | scraper/fbref_team_season_stats_scraper.py:306-329 | the eleven advanced stat ids for 'yes', the five basic ids for 'no', ValueError for anything else |
| TeamSeasonStats.StatIdsDistinct | scraper/fbref_team_season_stats_scraper.py:320-326 | the stat ids are pairwise distinct, so each bound table keeps its own key |
| TeamSeasonStats.StatPatternsMirrorIds | scraper/fbref_team_season_stats_scraper.py:331-359 | the caption patterns fail on exactly the inputs the stat ids fail on, with ValueError, and there is one pattern per stat id |
| TeamSeasonStats.ListRemove | scraper/fbref_team_season_stats_scraper.py:296 | `list.remove` fails with ValueError exactly when the value is absent and otherwise removes one element |
| TeamSeasonStats.BasicLeagueFourTablesFails | scraper/fbref_team_season_stats_scraper.py:294-296 | a basic league whose page yields exactly four stat tables always fails with ValueError, because the basic ids hold no 'passing' |
| TeamSeasonStats.StatsFromLeagueBinds | scraper/fbref_team_season_stats_scraper.py:288-304 | a successful scrape has a league entry with valid stat ids, no more tables than ids, and table i parsed with the pre-header row skipped and a `team_id` column, stored under stat id i |
| TeamSeasonStats.ScanUpToState | scraper/fbref_team_season_stats_scraper.py:144-149 | after k iterations the categories are those of the in-place cleaning loop and the kept result is the reorientation of the dict as it then stands (none before the first iteration) |
| TeamSeasonStats.ScanFails | scraper/fbref_team_season_stats_scraper.py:144-149 | a failure at iteration k is the failure of the whole loop |
| TeamSeasonStats.ScanNext | scraper/fbref_team_season_stats_scraper.py:145-149 | iteration k reads the original category k, replaces it in place and reorients the whole dict, stopping at the first error |
| TeamSeasonStats.TssAt | scraper/fbref_team_season_stats_scraper.py:145-149 | iteration k cleans category k with the threshold-5 column map and reorients by `stats.team_id`; an error there is the loop's error |
| TeamSeasonStats.CleanTeamSeasonStatsEmpty | scraper/fbref_team_season_stats_scraper.py:144-150 | with no categories the returned variable is never bound (UnboundLocalError) |
| TeamSeasonStats.CleanTeamSeasonStatsIsReorient | scraper/fbref_team_season_stats_scraper.py:127-150 | a successful clean has at least one category and equals the reorientation, by `stats.team_id`, of all categories cleaned |
| TeamSeasonStats.CleanTeamSeasonStatsLoop | scraper/fbref_team_season_stats_scraper.py:142-150 | the loop that cleans each category in place and reorients after each returns the specified result |
| TeamMatchStats.GetStatIds | scraper/fbref_team_match_stats_scraper.py:128-136 | the nine advanced ids exactly for 'yes', the four basic ids exactly otherwise; both start with 'schedule' and have no repeats |
| TeamMatchStats.ParseOptions | scraper/fbref_team_match_stats_scraper.py:194-199 | the pre-header row is skipped exactly for stat ids other than 'schedule', and then one trailing row is dropped, otherwise none |
| TeamMatchStats.ScrapeTeamMatchStats | scraper/fbref_team_match_stats_scraper.py:192 | a page without tables fails with IndexError |
| TeamMatchStats.ScrapeTeamMatchStatsColumns | scraper/fbref_team_match_stats_scraper.py:192-207 | a scraped log holds the match ids and opponent ids read from the links of the page's first table and every other column of that table parsed with the stat id's options |
| TeamMatchStats.ScrapeAllTeamMatchStatsShape | scraper/fbref_team_match_stats_scraper.py:127-144 | a successful scrape holds every stat id of the league's type, in order, each with its own match-log page scraped |
| TeamMatchStats.CleanTeamMatchStatsLoop | scraper/fbref_team_match_stats_scraper.py:161-168 | the in-place cleaning loop followed by one reorientation returns the specified result |
| TeamMatchStats.CleanTeamMatchStatsShape | scraper/fbref_team_match_stats_scraper.py:147-168 | a successful clean keeps the categories' keys and has one record per cleaned `schedule.match_id` entry, each with a stats sub-map for every category |
| PlayerSeasonStats.GetStatIds | scraper/fbref_player_season_stats_scraper.py:155-162 | the eleven advanced ids exactly when more than five tables matched a caption, the five basic ids otherwise |
| PlayerSeasonStats.StatIdsDistinct | scraper/fbref_player_season_stats_scraper.py:156-162 | both stat-id lists are free of repeats |
| PlayerSeasonStats.ScrapePlayerSeasonStatsShape | scraper/fbref_player_season_stats_scraper.py:154-174 | a successful scrape has at most eleven tables, table i parsed without its pre-header and totals rows, with player and country id columns, stored under stat id i |
| PlayerSeasonStats.PlayerSeasonStatsUrlParts | scraper/fbref_player_season_stats_scraper.py:296-321 | the URL starts with the team's squad page, continues with the season when one is given, and ends in 'all_comps/' exactly when no league is given |
| PlayerSeasonStats.IntToStringEndsInDigit | scraper/fbref_player_season_stats_scraper.py:318 | a league suffix `c<id>/` never ends the URL in 'all_comps/' |
| PlayerSeasonStats.PssGroups | scraper/fbref_player_season_stats_scraper.py:250-255 | popping 'keepers' fails with KeyError exactly when it is absent |
| PlayerSeasonStats.PssGroupsSplit | scraper/fbref_player_season_stats_scraper.py:249-261 | the keepers group holds 'keepers' and, when present, 'keepersadv', with their columns; the players group holds every other category |
| PlayerSeasonStats.PssOutput | scraper/fbref_player_season_stats_scraper.py:243-245 | the output has exactly the keys 'players' and 'keepers', in that order, holding the two record lists |
| PlayerSeasonStats.ChangePssDictOrientationShape | scraper/fbref_player_season_stats_scraper.py:224-294 | a successful reorientation needs 'keepers' and a non-empty players group, and holds for each group one record per `player_id` entry of its first category, with the meta data projected onto the meta fields |
| PlayerSeasonStats.ChangePssDictOrientationLoop | scraper/fbref_player_season_stats_scraper.py:242-294 | the pops and the loops over both groups return the specified reorientation |
| PlayerSeasonStats.SplitGroups | scraper/fbref_player_season_stats_scraper.py:250-261 | the pops form the two groups |
| PlayerSeasonStats.GroupRecordsLoop | scraper/fbref_player_season_stats_scraper.py:264-293 | one group's records, IndexError for an empty group |
| PlayerSeasonStats.CleanPlayerSeasonStatsLoop | scraper/fbref_player_season_stats_scraper.py:192-200 | the in-place cleaning loop (threshold 5) followed by the reorientation returns the specified result |
| PlayerSeasonStats.CleanPlayerSeasonStatsNeedsKeepers | scraper/fbref_player_season_stats_scraper.py:177-200 | without 'keepers' the clean always fails, with KeyError when every category cleans |
| PlayerMatchStats.GetStatIds | scraper/fbref_player_match_stats_scraper.py:132-140 | the seven advanced ids exactly for 'yes', only 'summary' otherwise; 'summary' first and no repeats |
| PlayerMatchStats.SquadIdOf | scraper/fbref_player_match_stats_scraper.py:344-352 | a link's squad id is the first match of `squads/(\w{8})/` |
| PlayerMatchStats.RowSquadIds | scraper/fbref_player_match_stats_scraper.py:349-354 | a row's `home_away` list has no repeats, holds only squad ids, and holds the squad id of every non-empty link that has one |
| PlayerMatchStats.IdsUpToLengths | scraper/fbref_player_match_stats_scraper.py:348-360 | `opponent` gets one entry per row and `team` one more for each row with exactly one squad id |
| PlayerMatchStats.IdsAlignedStep | scraper/fbref_player_match_stats_scraper.py:355-360 | a row without exactly one squad id appends its first id or None to `team` and its second or None to `opponent`, keeping both lists row-aligned |
| PlayerMatchStats.IdsUpToAligned | scraper/fbref_player_match_stats_scraper.py:348-360 | when no row has exactly one squad id, entry i of `team` and of `opponent` is the first and second squad id of row i, or None |
| PlayerMatchStats.SingleIdRowsPrefix | scraper/fbref_player_match_stats_scraper.py:348-360 | no single-id row among the first k rows means none among fewer |
| PlayerMatchStats.TeamAndOpponentIdsNoDrop | scraper/fbref_player_match_stats_scraper.py:348 | with `drop_rows` 0 the slice `[1:-0]` is empty and both id lists are empty |
| PlayerMatchStats.GetTeamAndOpponentIds | scraper/fbref_player_match_stats_scraper.py:325-361 | the nested loops return the specified id lists |
| PlayerMatchStats.RowSquadIdsLoop | scraper/fbref_player_match_stats_scraper.py:350-354 | the inner loop collects the row's `home_away` list |
| PlayerMatchStats.AppendIdValues | scraper/fbref_player_match_stats_scraper.py:355-360 | one row appends its first id or None to `team` and its second id or None to `opponent`; with a single id `team` gets the id and then None |
| PlayerMatchStats.PlayerMatchRowsKept | scraper/fbref_player_match_stats_scraper.py:303-321 | the kept rows are the selected rows whose length equals the first selected row's, which is kept; every selected row of that length is kept |
| PlayerMatchStats.ParsePlayerMatchStatTableDataRectangular | scraper/fbref_player_match_stats_scraper.py:282-323 | the parsed table has one entry per kept data row in every column |
| PlayerMatchStats.ScrapedHasIds | scraper/fbref_player_match_stats_scraper.py:272-280 | a scraped log holds `match_id`, `team_id` and `opponent_id` columns |
| PlayerMatchStats.ScrapeAllPlayerMatchStatsShape | scraper/fbref_player_match_stats_scraper.py:131-148 | a successful scrape holds every stat id of the league's type, in order, each with its own match-log page scraped, carrying the three id columns |
| PlayerMatchStats.CleanPlayerMatchStatsLoop | scraper/fbref_player_match_stats_scraper.py:165-172 | the in-place cleaning loop (threshold 1) followed by one reorientation returns the specified result |
| PlayerMatchStats.CleanPlayerMatchStatsShape | scraper/fbref_player_match_stats_scraper.py:151-242 | any second category selects the advanced column map; a successful clean keeps the categories' keys and has one record per cleaned `summary.match_id` entry with a stats sub-map per category |
| AllPlayersMatchStats.NextStatId | scraper/fbref_all_players_match_stats_scraper.py:286-292 | a goalkeeper caption gives 'keeper'; otherwise the id at the team's current table count ('summary' for the first), IndexError past the sixth |
| AllPlayersMatchStats.AddMatchTableKeeps | scraper/fbref_all_players_match_stats_scraper.py:272-292 | one table's attribution keeps at most two teams, 'home' first and 'away' second, each with at most seven tables under 'keeper' or the outfield ids |
| AllPlayersMatchStats.WithTeamKeeps | scraper/fbref_all_players_match_stats_scraper.py:278-285 | opening the first team as 'home', or a new second team as 'away', keeps that shape |
| AllPlayersMatchStats.TeamGainsTable | scraper/fbref_all_players_match_stats_scraper.py:286-292 | storing a table under 'keeper' or an outfield id keeps a team to at most seven allowed keys |
| AllPlayersMatchStats.SetTeamKeeps | scraper/fbref_all_players_match_stats_scraper.py:287-292 | replacing a team's tables, side unchanged, keeps the attribution's shape |
| AllPlayersMatchStats.StatTablesGrow | scraper/fbref_all_players_match_stats_scraper.py:287-292 | a team with seven allowed keys has every id taken, so a new key needs fewer than seven |
| AllPlayersMatchStats.HomeAwayWellAttributed | scraper/fbref_all_players_match_stats_scraper.py:255-293 | every stage of the attribution has at most two teams, 'home' then 'away', each with at most seven tables under allowed ids |
| AllPlayersMatchStats.ThirdTeamFails | scraper/fbref_all_players_match_stats_scraper.py:282-292 | a table captioned with a third team's name raises KeyError |
| AllPlayersMatchStats.HomeAwayPlayerStatTables | scraper/fbref_all_players_match_stats_scraper.py:270-293 | the loop over the page's tables returns the specified attribution |
| AllPlayersMatchStats.HomeAwayStep | scraper/fbref_all_players_match_stats_scraper.py:272-292 | one iteration gives the next stage, or its error is the whole loop's |
| AllPlayersMatchStats.HomeAwayFails | scraper/fbref_all_players_match_stats_scraper.py:272-293 | once a stage fails the whole attribution fails with that error |
| AllPlayersMatchStats.ScrapeTeamShape | scraper/fbref_all_players_match_stats_scraper.py:116-131 | each team keeps its side and stat ids, and each table is parsed without its pre-header row, dropping the last row except for the keeper table, with player and country id columns |
| AllPlayersMatchStats.CleanTeamsShape | scraper/fbref_all_players_match_stats_scraper.py:149-158 | cleaning needs at least one team, keeps the teams, their sides and stat ids, and cleans every table, pipeline first, under the map chosen from the first team's table count with threshold 2 |
| AllPlayersMatchStats.KeeperRecord | scraper/fbref_all_players_match_stats_scraper.py:245-250 | a goalkeeper's record has every keeper column, in order, with its row-j value or None when the column is too short |
| AllPlayersMatchStats.KeeperRecords | scraper/fbref_all_players_match_stats_scraper.py:244-251 | one keeper record per row index, record j built from row j |
| AllPlayersMatchStats.TeamRecordShape | scraper/fbref_all_players_match_stats_scraper.py:209-251 | a team's entry exists exactly when it has a keeper table with `player_id` and a 'summary' table with a sized `player_id`; then it holds one player record per `summary.player_id` entry, merged from every table but 'keeper', and one keeper record per keeper `player_id` entry |
| AllPlayersMatchStats.ChangeApmsDictOrientationShape | scraper/fbref_all_players_match_stats_scraper.py:185-253 | the output has one entry per team, in order, and fails exactly when some team's entry fails |
| AllPlayersMatchStats.ChangeApmsDictOrientationLoop | scraper/fbref_all_players_match_stats_scraper.py:204-253 | the outer loop appends each team's entry in turn |
| AllPlayersMatchStats.TeamRecordLoop | scraper/fbref_all_players_match_stats_scraper.py:209-252 | the loop body pops the keeper table, merges the player rows and copies the keeper rows |
| AllPlayersMatchStats.KeeperRecordsLoop | scraper/fbref_all_players_match_stats_scraper.py:244-251 | the keeper rows copied one by one |
| AllPlayersMatchStats.CleanAllPlayersMatchStatsLoop | scraper/fbref_all_players_match_stats_scraper.py:135-161 | the loops over teams and tables, then the reorientation, return the specified result |
| AllPlayersMatchStats.CleanTeamsLoop | scraper/fbref_all_players_match_stats_scraper.py:153-158 | each team's tables cleaned in turn, the first error ending the loop |
| LeagueStandings.Named | scraper/fbref_league_standings_scraper.py:118-119 | each standings table paired with its name, in table order |
| LeagueStandings.GroupStandingsFirstWins | scraper/fbref_league_standings_scraper.py:117-127 | the keys are the distinct table names in order of first appearance, and each holds the data, with its `team_id` column, of the first table carrying that name |
| LeagueStandings.CaptionedPicks | scraper/fbref_scraper.py:476-495 | every table the caption search picks has a caption, so its name can be taken |
| LeagueStandings.ScanPatternsPicks | scraper/fbref_scraper.py:480-493 | trying the patterns on one table only appends that table's index to the picks made so far |
| LeagueStandings.GroupStandingsTables | scraper/fbref_league_standings_scraper.py:117-127 | the grouping loop, skipping a table whose name is already a key, returns the specified grouping |
| LeagueStandings.ConvertStandingsDictDtypes | scraper/fbref_league_standings_scraper.py:263-288 | keys stay in order; the integer columns are converted to int, the float columns to float, every other column is untouched |
| LeagueStandings.GetDropNotesRenameSquad | scraper/fbref_league_standings_scraper.py:155-158 | neither 'notes' nor 'squad' is left, 'team_name' holds the 'squad' column when there was one, every other column is untouched |
| LeagueStandings.CleanStandingsColumnsKeys | scraper/fbref_league_standings_scraper.py:159-261 | the cleaned columns follow the standings order and include 'team_name' |
| LeagueStandings.GetCleanStandingsTeamName | scraper/fbref_league_standings_scraper.py:157-159 | 'team_name' holds the cleaned names of the 'squad' column, or of the 'team_name' column when there is no 'squad' |
| LeagueStandings.GetCleanStandingsColumns | scraper/fbref_league_standings_scraper.py:153-161 | every other column of the standings order keeps its converted value, and every column outside the order is dropped |
| LeagueStandings.CleanStandingsColumnsNoTeams | scraper/fbref_league_standings_scraper.py:159 | a table with neither 'squad' nor 'team_name' fails with KeyError |
| LeagueStandings.RowAt | scraper/fbref_league_standings_scraper.py:194-196 | row i exists exactly when every column has an entry i; it then has every column, in order, with that entry |
| LeagueStandings.ChangeLeagueStandingsDictOrientationShape | scraper/fbref_league_standings_scraper.py:173-198 | one record per 'rk' entry, record i holding every column's entry i |
| LeagueStandings.StandingsRows | scraper/fbref_league_standings_scraper.py:191-198 | the nested loops return the specified records |
| LeagueStandings.ScorerParts | scraper/fbref_league_standings_scraper.py:226-231 | parsing a top-scorer cell fails only with ValueError |
| LeagueStandings.DashFreeDigits | scraper/fbref_league_standings_scraper.py:226 | a written goal count holds no dash, so it is the last dash-separated part |
| LeagueStandings.ScorerPartsOfName | scraper/fbref_league_standings_scraper.py:226-231 | "Name-20" gives player "Name" and 20 goals |
| LeagueStandings.ScorerPartsOfHyphenatedName | scraper/fbref_league_standings_scraper.py:226-230 | a hyphenated name keeps its parts joined by a blank: "Jean-Pierre-7" gives "Jean Pierre" |
| LeagueStandings.ScorerPartsOfNames | scraper/fbref_league_standings_scraper.py:227-228 | names joined by a comma become the list of names: "A,B-3" gives ["A", "B"] |
| LeagueStandings.ScorerPartsWithoutGoals | scraper/fbref_league_standings_scraper.py:231 | a cell without a dash and without digits, the empty one included, raises ValueError |
| LeagueStandings.CleanTopScorerShape | scraper/fbref_league_standings_scraper.py:200-237 | a non-text cell raises AttributeError, an unparsable one ValueError; otherwise the record keeps its other keys in order and ends with 'top_team_scorer' holding a one-player list and the goals as a number |
| LeagueStandings.CleanTopScorerInPlace | scraper/fbref_league_standings_scraper.py:217-237 | parking the cell under 'raw_top_scorer', filling 'top_team_scorer' and popping the parked key gives the specified record |
| LeagueStandings.CleanRecordScorerInPlace | scraper/fbref_league_standings_scraper.py:166-167 | a record with a top scorer is cleaned, any other is left alone |
| LeagueStandings.CleanScorersLoop | scraper/fbref_league_standings_scraper.py:165-167 | the loop cleans every record's top scorer in turn |
| LeagueStandings.MapsOf | scraper/fbref_league_standings_scraper.py:168 | one map per record, in order |
| LeagueStandings.CleanLeagueStandingsShape | scraper/fbref_league_standings_scraper.py:130-171 | the output is `{'data': [...]}` with one entry per standings table, in order, each naming its table and holding its cleaned, reoriented records with top scorers parsed |
| LeagueStandings.CleanLeagueStandingsLoop | scraper/fbref_league_standings_scraper.py:144-171 | the loop over the tables returns the specified output |
| LeagueStandings.CleanStandingsTable | scraper/fbref_league_standings_scraper.py:148-169 | one table's entry |
| LeagueSeasons.OverallScorer | scraper/fbref_ls_scraper.py:226-235 | an empty cell gives player '' and no goals; a non-text cell raises AttributeError; any other parsed cell has its goals as a number |
| LeagueSeasons.OverallScorerOfName | scraper/fbref_ls_scraper.py:230-235 | "Name-20" gives player "Name" and 20 goals |
| LeagueSeasons.OverallScorerOfNames | scraper/fbref_ls_scraper.py:231-232 | tied scorers joined by a comma give the list of their names: "A,B-3" gives ["A", "B"] and 3 goals |
| LeagueSeasons.Players | scraper/fbref_ls_scraper.py:227-234 | the 'player' list has one entry per parsed cell, in order |
| LeagueSeasons.Goals | scraper/fbref_ls_scraper.py:228-235 | the 'goals_scored' list has one entry per parsed cell, in order |
| LeagueSeasons.PairsSnoc | scraper/fbref_ls_scraper.py:225-235 | one more cell appends one entry to each list |
| LeagueSeasons.CleanTopOverallScorerShape | scraper/fbref_ls_scraper.py:205-237 | a 'top_scorer' column that is not a list raises TypeError; otherwise the clean succeeds exactly when every cell parses, and then the other columns keep their order and 'top_scorer' comes last, holding two lists parallel to the raw column |
| LeagueSeasons.CleanTopOverallScorerValue | scraper/fbref_ls_scraper.py:221-237 | when every cell parses the result is the other columns followed by the new 'top_scorer' |
| LeagueSeasons.CleanTopOverallScorerInPlace | scraper/fbref_ls_scraper.py:221-237 | parking the column under 'raw_top_scorer', filling the two lists and popping the parked key gives the specified dict |
| LeagueSeasons.ParseScorersLoop | scraper/fbref_ls_scraper.py:225-235 | the loop appending to the two lists returns the specified column or the first cell's error |
| LeagueSeasons.ParseScorersFails | scraper/fbref_ls_scraper.py:225-235 | a cell that does not parse is the whole column's error |
| LeagueSeasons.ParseScorersDone | scraper/fbref_ls_scraper.py:225-235 | when every cell parses the column is the two lists of the parsed pairs |
| LeagueSeasons.ParseScorer | scraper/fbref_ls_scraper.py:226-235 | the loop body for one cell |
| LeagueSeasons.GetWithTopScorer | scraper/fbref_ls_scraper.py:114-115 | the top scorer step touches only 'top_scorer' and 'raw_top_scorer' |
| LeagueSeasons.GetCleanTeamColumns | scraper/fbref_ls_scraper.py:118-120 | a listed team column that is present is cleaned name by name; every other column is untouched |
| LeagueSeasons.GetRenameSeason | scraper/fbref_ls_scraper.py:122-123 | a present season column hands its values to 'season_id' and disappears; every other column is untouched |
| LeagueSeasons.GetRenameSeasons | scraper/fbref_ls_scraper.py:121-123 | after both renamings 'season' and 'year' are gone and 'season_id' holds 'year' when present, else 'season', else the original 'season_id' |
| LeagueSeasons.GetTeamsCleaned | scraper/fbref_ls_scraper.py:114-120 | only 'final', 'top_scorer', 'raw_top_scorer' and the team columns change before the renaming |
| LeagueSeasons.GetTeamsStage | scraper/fbref_ls_scraper.py:116-120 | removing 'final' and cleaning the team names leave every other column |
| LeagueSeasons.GetConvertedProjected | scraper/fbref_ls_scraper.py:124-125 | a column of the seasons order is converted by its key and kept by the projection |
| LeagueSeasons.SeasonColumnsSeasonId | scraper/fbref_ls_scraper.py:100-125 | 'season_id' holds the 'year' column, else the 'season' column, else the input's own 'season_id' |
| LeagueSeasons.SeasonSourceKept | scraper/fbref_ls_scraper.py:114-120 | the season columns reach the renaming unchanged |
| LeagueSeasons.SeasonColumnsTeams | scraper/fbref_ls_scraper.py:118-120 | 'champion' and 'runner-up' hold the input's columns with each name cleaned, and are missing exactly when the input lacks them |
| LeagueSeasons.SeasonColumnsConverted | scraper/fbref_ls_scraper.py:124-155 | '#_squads' is converted to integers; 'competition_name' and 'host_country' are copied; each is missing exactly when the input lacks it |
| LeagueSeasons.SeasonColumnsTopScorer | scraper/fbref_ls_scraper.py:114-115 | a 'top_scorer' column ends up parsed into players and goals, parallel to the raw column |
| LeagueSeasons.LaterStagesKeep | scraper/fbref_ls_scraper.py:116-125 | the later stages neither convert, rename nor clean 'top_scorer' |
| LeagueSeasons.TopScorerStage | scraper/fbref_ls_scraper.py:114-115 | the top scorer stage leaves the column parsed |
| LeagueSeasons.SeasonColumnsKeys | scraper/fbref_ls_scraper.py:125-179 | the columns are a subsequence of the seasons order: 'final', 'season', 'year' and every unlisted column are gone |
| LeagueSeasons.CleanTeamColumnsLoop | scraper/fbref_ls_scraper.py:118-120 | the team-name loop returns the specified columns |
| LeagueSeasons.RenameSeasonsLoop | scraper/fbref_ls_scraper.py:121-123 | the renaming loop returns the specified columns |
| LeagueSeasons.CleanLeagueSeasonsSteps | scraper/fbref_ls_scraper.py:100-127 | the step-by-step clean (top scorer, 'final', team names, renaming, conversion, projection, reorientation by 'season_id') returns the specified result |
| Countries.NationalTeams | scraper/fbref_countries_scraper.py:152-177 | None exactly for an entry other than 'Men/Women', 'Men' and 'Women'; 'M' is present iff there is a men's team and 'F' iff there is a women's team; the codes are distinct, drawn from M and F, with men first |
| Countries.NationalTeamsRoundTrip | scraper/fbref_countries_scraper.py:170-177 | a recognised label is recovered from its codes by the inverse map, so no two labels give the same codes |
| Countries.CompetitionParts | scraper/fbref_countries_scraper.py:107 | `x.split(',')` raises AttributeError exactly when the cell is not text; otherwise the pieces are comma-free, at least one, and joined with ',' give the cell back |
| Countries.CountryColumns | scraper/fbref_countries_scraper.py:101-109 | KeyError when 'flag' is missing; a success needed 'flag', 'national_teams' and 'competitions', and its keys are a subsequence of the six-key order |
| Countries.Converted | scraper/fbref_countries_scraper.py:102-104 | the flag is popped (KeyError when missing) before '#_clubs' and '#_players' are converted to integers |
| Countries.WithTeams | scraper/fbref_countries_scraper.py:106 | succeeds iff 'national_teams' is present and iterable, and then replaces only that column by its entries' codes |
| Countries.WithCompetitions | scraper/fbref_countries_scraper.py:107 | KeyError without 'competitions'; the first cell that cannot be split gives the error; a success replaces only that column by the split cells |
| Countries.GetConverted | scraper/fbref_countries_scraper.py:198-201 | after popping the flag, every other column is present iff it was, and holds its conversion (integers for the two count columns, unchanged otherwise) |
| Countries.CountryColumnsNationalTeams | scraper/fbref_countries_scraper.py:106 | the output's 'national_teams' has one entry per input entry, entry i being the codes of input entry i |
| Countries.CountryColumnsConverted | scraper/fbref_countries_scraper.py:198-201 | '#_clubs' and '#_players' are converted to integers, 'country', 'country_code' and 'governing_body' copied; each is in the output exactly when it is in the input |
| Countries.CountryColumnsDropsCompetitions | scraper/fbref_countries_scraper.py:223-226 | the output never has 'competitions' (split, then projected away) nor 'flag' |
| Countries.CountryColumnsCompetitionNotText | scraper/fbref_countries_scraper.py:107 | a competitions cell that is not text raises AttributeError although the column is dropped afterwards |
| Countries.CleanCountriesDataRecords | scraper/fbref_countries_scraper.py:111 | a successful clean is `{'data': records}` with one record per 'country_code' entry |
| Countries.CleanCountriesDataSteps | scraper/fbref_countries_scraper.py:87-112 | popping, converting, overwriting, projecting and reorienting step by step gives the cleaned countries data |
| LeagueSeasonDetails.DetailsUrlSegments | scraper/fbref_ls_details_scraper.py:104-108 | the fixtures URL's path is 'comps', the league id, the season id when one is given, then 'schedule' |
| LeagueSeasonDetails.DetailsUrlJoin | scraper/fbref_ls_details_scraper.py:104-108 | joining those segments with '/' gives back the URL |
| LeagueSeasonDetails.TextsOf | scraper/fbref_ls_details_scraper.py:144-145 | a column of text values read back as its texts |
| LeagueSeasonDetails.Extreme | scraper/fbref_ls_details_scraper.py:144-145 | `min`/`max` of an empty column raise ValueError; a result is an element of the column |
| LeagueSeasonDetails.ExtremeBounds | scraper/fbref_ls_details_scraper.py:144-145 | on a non-empty column of dates the start date is a date of the column not after any other, and the end date one not before any other, in character order |
| LeagueSeasonDetails.CheckRounds | scraper/fbref_ls_details_scraper.py:182-201 | no 'round' column gives None; otherwise the rounds are the column's values without repeats, each value of the column among them |
| LeagueSeasonDetails.RemoveFirst | scraper/fbref_ls_details_scraper.py:154 | `list.remove` succeeds exactly when the value is present (ValueError otherwise) and drops exactly one occurrence |
| LeagueSeasonDetails.RemoveFirstDistinct | scraper/fbref_ls_details_scraper.py:154 | in a list without repeats, removing a value leaves every other value and not that one |
| LeagueSeasonDetails.DropRoundLabel | scraper/fbref_ls_details_scraper.py:153-154 | as written, `'Round' in None` raises TypeError when there are no rounds |
| LeagueSeasonDetails.DropRoundLabelFixed | scraper/fbref_ls_details_scraper.py:153-154 | as intended, no rounds stay None; otherwise it agrees with the code as written |
| LeagueSeasonDetails.DropRoundLabelOfRounds | scraper/fbref_ls_details_scraper.py:152-154 | with a 'round' column the rounds lose the 'Round' header label and keep every other value, in both versions |
| LeagueSeasonDetails.LeagueNumber | scraper/fbref_ls_details_scraper.py:138 | `int(league_id)` succeeds exactly on integer text, with its value |
| LeagueSeasonDetails.TypeAndAdv | scraper/fbref_ls_details_scraper.py:147 | unpacking the registry lookup succeeds exactly when the league is in the registry, and raises TypeError otherwise |
| LeagueSeasonDetails.CleanLeagueSeasonDetailsWithoutRounds | scraper/fbref_ls_details_scraper.py:117-156 | as written, a schedule without a 'round' column always fails, with TypeError whenever the corrected version succeeds |
| LeagueSeasonDetails.DetailsWithoutRoundsAfterDates | scraper/fbref_ls_details_scraper.py:138-154 | once the league number and dates are read, a missing 'round' column fails the code as written |
| LeagueSeasonDetails.CleanLeagueSeasonDetailsFixedRecord | scraper/fbref_ls_details_scraper.py:135-156 | the corrected record holds, in the source's order, the league number, the season or 'most_recent_season', the first and last schedule date, the registry's league type and advanced flag, and no rounds |
| LeagueSeasonDetails.DetailsFixedWithoutRounds | scraper/fbref_ls_details_scraper.py:135-156 | with every earlier step succeeding the corrected clean returns the record with rounds None |
| LeagueSeasonDetails.CleanLeagueSeasonDetailsSteps | scraper/fbref_ls_details_scraper.py:135-156 | the fresh dict filled key by key, then 'Round' removed, gives the specified result |
| LeagueSeasonDetails.RemoveRoundLabel | scraper/fbref_ls_details_scraper.py:153-154 | the in-place removal on the record's list |
| LeagueSeasonDetails.SetRounds | scraper/fbref_ls_details_scraper.py:152-154 | overwriting 'rounds' keeps the record's other entries and their order |
| LeagueSeasonDetails.FillDetails | scraper/fbref_ls_details_scraper.py:138-152 | the successive assignments build the record in the source's key order |
| LeagueSeasonDetails.Assign | scraper/fbref_ls_details_scraper.py:138-152 | assigning a fresh key appends it |
| Leagues.NonSpaceStripLeft | scraper/fbref_leagues_scraper.py:349 | dropping leading whitespace keeps every other character |
| Leagues.CollapseSpacesShape | scraper/fbref_leagues_scraper.py:349 | after `re.sub(r'\s+', ' ', x)` the only whitespace is single spaces, and every other character comes from the input |
| Leagues.CollapseSpacesKeeps | scraper/fbref_leagues_scraper.py:349 | the characters other than whitespace keep their order |
| Leagues.CollapseSpacesNoop | scraper/fbref_leagues_scraper.py:349 | text whose only whitespace is single spaces is left alone |
| Leagues.CollapseSpacesIdempotent | scraper/fbref_leagues_scraper.py:349 | collapsing twice is collapsing once |
| Leagues.CleanCompetitionName | scraper/fbref_leagues_scraper.py:348-349 | a cleaned name has no '-', only single spaces, and the other characters of the input in order |
| Leagues.CleanCompetitionNameIdempotent | scraper/fbref_leagues_scraper.py:348-349 | cleaning a cleaned name changes nothing |
| Leagues.CleanCompetitionNameOfSlug | scraper/fbref_leagues_scraper.py:348-349 | a dashed slug "Copa-Libertadores" gives "Copa Libertadores" |
| Leagues.CleanNames | scraper/fbref_leagues_scraper.py:348-349 | every name of the list cleaned, in order |
| Leagues.FormatLeagueTable | scraper/fbref_leagues_scraper.py:323-350 | the table's parse error is the result's; 'league_id' holds the rows' competition ids; with names requested 'competition_name' holds the cleaned names read from the links; every other column is the parsed table's |
| Leagues.GetSetItemAll | scraper/fbref_leagues_scraper.py:343-349 | an assignment sets its own key and leaves every other one |
| Leagues.FormatLeagueTableSteps | scraper/fbref_leagues_scraper.py:341-350 | the successive assignments into the parsed dict give the specified table |
| Leagues.MergeRows | scraper/fbref_leagues_scraper.py:225-229 | the merge over a table's names keeps the three lists parallel and only appends to them |
| Leagues.MergeRow | scraper/fbref_leagues_scraper.py:226-229 | one row keeps the lists parallel and only appends |
| Leagues.MergeRowsShape | scraper/fbref_leagues_scraper.py:224-283 | the merged names are those seen before and those of the rows; each added name is new, taken at its first row with that row's id and gender, and the added names keep the order of those rows |
| Leagues.MergeTable | scraper/fbref_leagues_scraper.py:225-229 | one table's merge keeps the lists parallel and only appends |
| Leagues.MergeTables | scraper/fbref_leagues_scraper.py:224-229 | the merge of several tables, in order, keeps the lists parallel and only appends |
| Leagues.QualifierTables | scraper/fbref_leagues_scraper.py:214-218 | at most one formatted table per page table |
| Leagues.InternationalCompetitions | scraper/fbref_leagues_scraper.py:199-236 | the result is None or the three parallel merged lists |
| Leagues.FormattedFirst | scraper/fbref_leagues_scraper.py:165-197 | the result is None or the first matching table's columns |
| Leagues.NationalMerge | scraper/fbref_leagues_scraper.py:271-283 | the merge of the men's then the women's table keeps the lists parallel |
| Leagues.NationalTeamCompetitions | scraper/fbref_leagues_scraper.py:238-291 | a merge error is the result's; otherwise None without any name, else the three merged lists |
| Leagues.MergeTableTagged | scraper/fbref_leagues_scraper.py:276-283 | merging a table with a fixed gender adds exactly the table's new names, each carrying that gender |
| Leagues.NationalMergeGenders | scraper/fbref_leagues_scraper.py:274-283 | every national competition is listed once and is tagged 'M' exactly when the men's table lists it, 'F' otherwise |
| Leagues.ScrapeLeaguesData | scraper/fbref_leagues_scraper.py:115-120 | the scraped dict has the four categories, in the source's order |
| Leagues.CategoriesDict | scraper/fbref_leagues_scraper.py:115-119 | the four categories, in order |
| Leagues.NonNullKeys | scraper/fbref_leagues_scraper.py:139-310 | the keys of the entries that are not None, empty exactly when every entry is None |
| Leagues.CleanCategory | scraper/fbref_leagues_scraper.py:141-146 | a category that is not a dict raises AttributeError; a cleaned one has its columns in the leagues order |
| Leagues.CleanedCategories | scraper/fbref_leagues_scraper.py:137-146 | the cleaned dict holds exactly the categories that are not None, in order, none of them None |
| Leagues.AddCleanedCategory | scraper/fbref_leagues_scraper.py:139-146 | one category is skipped when None and otherwise cleaned and added under its name |
| Leagues.NonNullKeysOfNonNull | scraper/fbref_leagues_scraper.py:310 | a dict without None values keeps all its keys |
| Leagues.Subscript | scraper/fbref_leagues_scraper.py:314-318 | `v[k]` succeeds only on a dict holding `k`, with its value |
| Leagues.LeagueRecords | scraper/fbref_leagues_scraper.py:315-319 | one record per row index |
| Leagues.LeagueRecordsRows | scraper/fbref_leagues_scraper.py:315-319 | record i maps each column, in order, to its entry i |
| Leagues.LeagueType | scraper/fbref_leagues_scraper.py:311-320 | an entry holds exactly 'league_type', the category's name, then 'leagues' |
| Leagues.LeagueTypeRecords | scraper/fbref_leagues_scraper.py:311-320 | a category that is not a dict or lacks 'league_id' fails; otherwise 'leagues' holds one record per 'league_id' entry, record i built from row i of every column |
| Leagues.LeagueTypesNamed | scraper/fbref_leagues_scraper.py:309-320 | one entry per category that is not None, entry j named after the j-th of them |
| Leagues.ChangeLeagueDictOrientation | scraper/fbref_leagues_scraper.py:293-321 | the output is `{'data': entries}` |
| Leagues.CleanLeaguesDataCategories | scraper/fbref_leagues_scraper.py:123-149 | the cleaned output has one entry per category that is not None, named after it, in order |
| Leagues.CleanLeaguesDataHasData | scraper/fbref_leagues_scraper.py:148-149 | a successful clean has the single key 'data', holding a list |
| Leagues.ScrapeCleanDataNeverRejects | scraper/fbref_leagues_scraper.py:64-70 | as written, the all-None check never rejects a successful clean |
| Leagues.ScrapeCleanDataOfNoLeagues | scraper/fbref_leagues_scraper.py:62-70 | a country with no competition at all gets `{'data': []}` instead of ValueError |
| Leagues.CleanedCategoriesOfNone | scraper/fbref_leagues_scraper.py:138-146 | only None categories clean to an empty dict |
| Leagues.ScrapeCleanDataFixedRejectsEmpty | scraper/fbref_leagues_scraper.py:66-70 | the corrected check fails exactly when the clean has no entry, and otherwise returns the clean |
| Leagues.MergeRowsLoop | scraper/fbref_leagues_scraper.py:225-229 | the inner merge loop gives the specified lists |
| Leagues.MergeRowSteps | scraper/fbref_leagues_scraper.py:226-229 | one row: a merged name skipped, a new one appended with its row's id and gender |
| Leagues.MergeTableSteps | scraper/fbref_leagues_scraper.py:225-229 | one table of the merge |
| Leagues.MergeTablesLoop | scraper/fbref_leagues_scraper.py:221-229 | the outer merge loop over the qualifiers tables |
| Leagues.QualifierTablesLoop | scraper/fbref_leagues_scraper.py:214-218 | the loop collecting the formatted qualifiers tables |
| Leagues.InternationalCompetitionsSteps | scraper/fbref_leagues_scraper.py:213-236 | `scrape_international_cups_table` step by step |
| Leagues.NationalTeamCompetitionsSteps | scraper/fbref_leagues_scraper.py:270-291 | the merge and the None check of `scrape_national_team_competitions` |
| Leagues.CleanedCategoriesLoop | scraper/fbref_leagues_scraper.py:137-146 | the loop over the categories |
| Leagues.AddCleanedCategorySteps | scraper/fbref_leagues_scraper.py:139-146 | one category converted, projected and stored, or skipped when None |
| Leagues.RecordAt | scraper/fbref_leagues_scraper.py:316-318 | the innermost loop builds record i key by key |
| Leagues.LeagueRecordsLoop | scraper/fbref_leagues_scraper.py:315-319 | the loop over one category's rows |
| Leagues.ChangeLeagueDictOrientationLoop | scraper/fbref_leagues_scraper.py:307-321 | the loops of the reorientation |
| Leagues.LeagueTypesLoop | scraper/fbref_leagues_scraper.py:309-320 | the loop over the categories, one entry per category that is not None |
| Leagues.AddLeagueTypeSteps | scraper/fbref_leagues_scraper.py:310-320 | one category skipped when None, its entry appended otherwise |
| Leagues.LeagueTypeSteps | scraper/fbref_leagues_scraper.py:311-319 | one category's entry |
| Leagues.CleanLeaguesDataSteps | scraper/fbref_leagues_scraper.py:137-149 | `clean_leagues_data` step by step |
| Teams.TeamsDtypes | scraper/fbref_teams_scraper.py:271-298 | keys stay in order; the integer columns are converted to int and every other column is untouched; the conversion succeeds exactly when every integer column converts |
| Teams.ConvertTeamsDictDtypes | scraper/fbref_teams_scraper.py:293-298 | the in-place conversion loop gives the specified columns |
| Teams.LeadingAge | scraper/fbref_teams_scraper.py:197 | a text age gives its two leading digits, None when it does not start with two digits; a non-text cell fails |
| Teams.LeadingAgeOfYears | scraper/fbref_teams_scraper.py:197-207 | an age cell "27-123" becomes the integer 27 |
| Teams.RosterParsedKeys | scraper/fbref_teams_scraper.py:191-197 | the parsed roster has 'player_id', 'nationality' and 'age', the age cells reduced to their leading digits |
| Teams.ThreeSets | scraper/fbref_teams_scraper.py:194-197 | the three assignments set their own columns and leave 'age' for the last one |
| Teams.RosterColumnsOf | scraper/fbref_teams_scraper.py:191-210 | the roster columns are the parsed table with ids, nationalities and ages, keys deleted, 'pos' renamed, converted and projected onto the roster order |
| Teams.RosterStepsShape | scraper/fbref_teams_scraper.py:203-210 | after the column steps the keys follow the roster order, 'position' holds the old 'pos' column and 'age' is converted to int |
| Teams.RosterKeptColumn | scraper/fbref_teams_scraper.py:203-210 | every other column of the roster order that survives the deletion keeps its value, converted when it is an integer column |
| Teams.RosterColumnsShape | scraper/fbref_teams_scraper.py:191-210 | the roster columns follow the roster order and hold player ids, nationalities, positions and integer ages |
| Teams.CountTotals | scraper/fbref_teams_scraper.py:212-216 | the number of totals rows is at most the number of players |
| Teams.MarkTotalsPads | scraper/fbref_teams_scraper.py:212-216 | after the loop the counter is the number of names containing "Total" and 'player_id' has one None appended per such name |
| Teams.MarkOneStep | scraper/fbref_teams_scraper.py:213-216 | one name adds a None and one to the counter exactly when it contains "Total" |
| Teams.MarkOneTotal | scraper/fbref_teams_scraper.py:214-216 | a totals name appends None to 'player_id' and counts one |
| Teams.MarkPad | scraper/fbref_teams_scraper.py:215-216 | appending one None keeps the padding invariant |
| Teams.MarkPadIds | scraper/fbref_teams_scraper.py:215 | the padded ids are the original ids followed by one None per counted row |
| Teams.PlayerIdOnly | scraper/fbref_teams_scraper.py:215 | setting 'player_id' changes only that column |
| Teams.CleanRoster | scraper/fbref_teams_scraper.py:212-221 | a cleaned roster has the single key 'data', holding a list |
| Teams.RosterRecords | scraper/fbref_teams_scraper.py:218 | one record per player row, at least as many as totals rows |
| Teams.RosterData | scraper/fbref_teams_scraper.py:218-220 | the roster data is the records sliced `[:-totals_rows]` |
| Teams.MarkedCount | scraper/fbref_teams_scraper.py:212-216 | the counter ends at the number of totals rows |
| Teams.DataOnly | scraper/fbref_teams_scraper.py:220 | overwriting 'data' of `{'data': …}` leaves just the new value |
| Teams.CleanRosterDropsTotals | scraper/fbref_teams_scraper.py:220 | with totals rows, exactly that many trailing records are dropped |
| Teams.CleanRosterWithoutTotals | scraper/fbref_teams_scraper.py:220 | as written, a roster without totals rows loses every record (`[:-0]` is empty) |
| Teams.CleanRosterFixed | scraper/fbref_teams_scraper.py:220 | the corrected roster has the single key 'data', holding a list |
| Teams.CleanRosterFixedKeepsPlayers | scraper/fbref_teams_scraper.py:212-221 | the corrected clean succeeds exactly when the original does, drops exactly the totals records, and keeps every record when there are none |
| Teams.RosterDataFixed | scraper/fbref_teams_scraper.py:220 | the corrected data is the records without the last `totals_rows` ones |
| Teams.ScheduleParsedIds | scraper/fbref_teams_scraper.py:236-241 | the parsed schedule holds the match and league ids read from the links |
| Teams.ScheduleRenamedColumns | scraper/fbref_teams_scraper.py:249-250 | 'home_away' holds the 'venue' column and 'league_name' the 'comp' column, both required |
| Teams.ScheduleRenamedKeeps | scraper/fbref_teams_scraper.py:249-255 | every column neither renamed nor deleted is untouched |
| Teams.ConvertedProjected | scraper/fbref_teams_scraper.py:257-262 | a column of the order is converted by its key and kept by the projection |
| Teams.ScheduleColumnsOf | scraper/fbref_teams_scraper.py:236-262 | the schedule columns are the parsed table with ids, cleaned names and goals, renamed, deleted, converted and projected |
| Teams.ScheduleStepsShape | scraper/fbref_teams_scraper.py:249-262 | after the column steps the keys follow the schedule order, with 'home_away', 'league_name', 'match_id' and 'league_id' |
| Teams.ScheduleColumnsShape | scraper/fbref_teams_scraper.py:236-262 | the schedule columns follow the schedule order and hold venue, competition, match ids and league ids |
| Teams.PadMatchIdsExtends | scraper/fbref_teams_scraper.py:264-267 | padding n times appends n None to 'match_id' and to 'league_id' and changes nothing else |
| Teams.PadMatchIdsNone | scraper/fbref_teams_scraper.py:264-267 | padding zero times changes nothing |
| Teams.PadMatchIdsStep | scraper/fbref_teams_scraper.py:265-267 | one more round of padding keeps the invariant |
| Teams.PaddedStep | scraper/fbref_teams_scraper.py:265-267 | padding composes |
| Teams.PadRound | scraper/fbref_teams_scraper.py:266-267 | one round pads both lists by one |
| Teams.PadOnceIs | scraper/fbref_teams_scraper.py:266-267 | one round appends None to 'match_id' and then to 'league_id' |
| Teams.PadTwice | scraper/fbref_teams_scraper.py:266-267 | the two assignments keep the keys and touch only their two columns |
| Teams.CleanScheduleRecords | scraper/fbref_teams_scraper.py:263-269 | after padding both id lists are at least as long as the dates, and the schedule has one record per date |
| Teams.CleanTeams | scraper/fbref_teams_scraper.py:151-176 | None tables raise TypeError and fewer than two fail; a successful clean holds the cleaned roster of table 0 and the cleaned schedule of table 1 |
| Teams.TeamData | scraper/fbref_teams_scraper.py:171-176 | the output has 'team_roster' then 'team_schedule' |
| Teams.RosterColumnsSteps | scraper/fbref_teams_scraper.py:191-210 | the roster column steps in the source's order |
| Teams.MarkTotalsLoop | scraper/fbref_teams_scraper.py:212-216 | the totals loop returns the specified padding and count |
| Teams.MarkTotalsStep | scraper/fbref_teams_scraper.py:213-216 | one iteration, or the loop's failure |
| Teams.MarkTotalsFails | scraper/fbref_teams_scraper.py:213-216 | a failure stays the loop's result |
| Teams.CleanTeamRosterTableSteps | scraper/fbref_teams_scraper.py:178-221 | `clean_team_roster_table` step by step |
| Teams.CleanRosterSteps | scraper/fbref_teams_scraper.py:212-221 | the totals loop, the reorientation and the slice |
| Teams.ScheduleColumnsSteps | scraper/fbref_teams_scraper.py:236-262 | the schedule column steps in the source's order |
| Teams.PadMatchIdsLoop | scraper/fbref_teams_scraper.py:265-267 | the padding loop |
| Teams.PadMatchIdsFails | scraper/fbref_teams_scraper.py:265-267 | a padding failure stays the result |
| Teams.PadMatchIdsErr | scraper/fbref_teams_scraper.py:265-267 | one more round after a failure changes nothing |
| Teams.CleanTeamScheduleTableSteps | scraper/fbref_teams_scraper.py:223-269 | `clean_team_schedule_table` step by step |
| Teams.CleanTeamsSteps | scraper/fbref_teams_scraper.py:170-176 | `clean_teams` step by step |
| Matches.MatchesUrl | scraper/fbref_matches_scraper.py:390-423 | the URL fails with ValueError exactly when neither a team nor a league id is given; otherwise it starts with the fbref base URL |
| Matches.LeagueUrlIsLeague | scraper/fbref_matches_scraper.py:419-420 | a league-only request gives a URL containing "comps", which selects the league cleaning |
| Matches.TeamUrlIsTeam | scraper/fbref_matches_scraper.py:414-418 | a team request (ids without the letter 'p') gives a URL without "comps", which selects the team cleaning |
| Matches.CleanScore | scraper/fbref_matches_scraper.py:363-388 | both goals are present exactly when the score contains '-', and neither part contains '-' |
| Matches.CleanScoreOfScore | scraper/fbref_matches_scraper.py:381-384 | "h-a…" splits into home goals h and away goals a |
| Matches.SplitHasSep | scraper/fbref_matches_scraper.py:381-382 | the split has more than one part exactly when the separator occurs |
| Matches.ScorePart | scraper/fbref_matches_scraper.py:222-223 | a score cell gives its goals when it is text (None without '-') and fails otherwise |
| Matches.ScorePartOfScore | scraper/fbref_matches_scraper.py:222-223 | part 0 of "h-a" is h and part 1 is a |
| Matches.SquadHits | scraper/fbref_matches_scraper.py:322-327 | at most one squad id per link |
| Matches.RowTeamIds | scraper/fbref_matches_scraper.py:322-327 | a row's squad ids are kept without repeats |
| Matches.RowHomeAway | scraper/fbref_matches_scraper.py:328-333 | a row adds one away entry and one home entry, two home entries when the row has exactly one squad id |
| Matches.HomeAndAwayIds | scraper/fbref_matches_scraper.py:318-334 | away has one entry per row and home one more for each row with a single squad id |
| Matches.HomeAndAwayAligned | scraper/fbref_matches_scraper.py:318-334 | when every row names two squads, home and away line up with the rows and hold the row's first and second distinct ids |
| Matches.AlignedStep | scraper/fbref_matches_scraper.py:321-330 | a row with two squads keeps the alignment |
| Matches.HomeAndAwayMisaligned | scraper/fbref_matches_scraper.py:328-333 | one row with a single squad id makes home longer than away (the append to home is not undone) |
| Matches.OneIdRowsPositive | scraper/fbref_matches_scraper.py:328-333 | such a row is counted |
| Matches.RowTeamIdsLoop | scraper/fbref_matches_scraper.py:322-327 | the link loop returns the row's squad ids |
| Matches.SquadHitsSnoc | scraper/fbref_matches_scraper.py:324-327 | one more link appends its id when it matches |
| Matches.HomeAndAwayIdsSnoc | scraper/fbref_matches_scraper.py:321-333 | one more row appends its home and away entries |
| Matches.HomeAndAwayIdsLoop | scraper/fbref_matches_scraper.py:298-334 | the row loop over rows after the header returns the specified home and away lists |
| Matches.AppendRowIds | scraper/fbref_matches_scraper.py:328-333 | the try block appends the row's entries |
| Matches.LeagueIdColumns | scraper/fbref_matches_scraper.py:214-221 | match ids, home ids and away ids are set and 'score' is kept |
| Matches.LeagueScoreColumns | scraper/fbref_matches_scraper.py:222-223 | both score columns are computed from 'score' and every other column is kept |
| Matches.LeagueColumnsShape | scraper/fbref_matches_scraper.py:198-224 | the cleaned league table holds the ids and the two score columns |
| Matches.LeagueScoresAsWritten | scraper/fbref_matches_scraper.py:222-223 | as written, the away score column equals the home score column |
| Matches.AwayScoreAsWritten | scraper/fbref_matches_scraper.py:223 | for "2-1" the away score is "2", not "1" |
| Matches.LeagueScoresFixed | scraper/fbref_matches_scraper.py:222-223 | the corrected clean reads "h-a" as home h and away a |
| Matches.ScoreCellAt | scraper/fbref_matches_scraper.py:222-223 | the i-th score cell gives the i-th goals |
| Matches.TeamIdColumns | scraper/fbref_matches_scraper.py:241-247 | match, league and opponent ids are set and 'venue' is kept |
| Matches.TeamGoalColumns | scraper/fbref_matches_scraper.py:251-252 | only 'gf' and 'ga' change, and both must exist |
| Matches.RenameVenue | scraper/fbref_matches_scraper.py:249 | 'venue' is renamed to 'home_away' and the id columns are kept |
| Matches.TeamColumnsShape | scraper/fbref_matches_scraper.py:226-253 | the cleaned team table has no 'venue', holds it as 'home_away', and holds the ids |
| Matches.GoalColumnsKeepIds | scraper/fbref_matches_scraper.py:251-252 | cleaning the goals keeps the venue and id columns |
| Matches.PadCount | scraper/fbref_matches_scraper.py:168-174 | the count of missing ids fills the column up to the number of dates |
| Matches.Padded | scraper/fbref_matches_scraper.py:168-174 | padding appends that many None to the column, reaching the number of dates, and changes nothing else |
| Matches.PadColumn | scraper/fbref_matches_scraper.py:168-174 | the padding loop |
| Matches.CleanNameColumn | scraper/fbref_matches_scraper.py:176-178 | only the named column changes, and an absent column is skipped |
| Matches.CleanNames | scraper/fbref_matches_scraper.py:176-178 | only 'home', 'away' and 'opponent' change |
| Matches.MatchesDtypes | scraper/fbref_matches_scraper.py:336-361 | the integer columns are converted and the others are untouched; it succeeds exactly when every integer column converts |
| Matches.MatchesColumnsCleaned | scraper/fbref_matches_scraper.py:167-193 | the dates are kept and the keys follow the matches order |
| Matches.CleanMatchesDictRecords | scraper/fbref_matches_scraper.py:167-196 | the result is `{'data': [...]}` with one record per date, the match ids padded to the dates |
| Matches.CleanMatchesDictSteps | scraper/fbref_matches_scraper.py:167-196 | `clean_matches` after the table clean, step by step |
| Matches.CleanMatchesSteps | scraper/fbref_matches_scraper.py:145-196 | `clean_matches`, league or team by the URL |
| Matches.MatchesTable | scraper/fbref_matches_scraper.py:276-296 | a page without a matching caption fails with TypeError; otherwise a table of the page |
| Matches.ScrapeCleanData | scraper/fbref_matches_scraper.py:100-142 | no team and no league fails with ValueError; success needs the URL and its table |
| Players.CleanDobShortcut | scraper/fbref_players_scraper.py:369-393 | a text date already holding an ISO date is returned unchanged; a missing date becomes None |
| Players.CleanDobIdempotent | scraper/fbref_players_scraper.py:383-393 | cleaning a cleaned date of birth changes nothing, given a date parser that outputs ISO dates |
| Players.DropQuotes | scraper/fbref_players_scraper.py:417 | removing quotes, brackets and commas keeps only characters of the input that are none of those, and leaves a text without them unchanged |
| Players.DropInSpaceChars | scraper/fbref_players_scraper.py:418 | removing every "in" before a space only removes characters |
| Players.DropInSpaceNoHit | scraper/fbref_players_scraper.py:418 | a text without "in" before a space is unchanged |
| Players.InSpaceAtTail | scraper/fbref_players_scraper.py:418 | the "in"-before-space test shifts along the text |
| Players.DropLeadingIn | scraper/fbref_players_scraper.py:418-428 | the corrected removal of a leading "in " only removes characters |
| Players.StripChars | scraper/fbref_players_scraper.py:419-429 | stripping only removes characters |
| Players.CountryTextClean | scraper/fbref_players_scraper.py:416-419 | the cleaned country has no quotes, brackets, commas or outer spaces |
| Players.CityTextClean | scraper/fbref_players_scraper.py:425-429 | the cleaned city has no quotes, brackets, commas, dashes or outer spaces |
| Players.DashesToSpaces | scraper/fbref_players_scraper.py:427 | dashes become spaces and nothing else is added |
| Players.BirthplaceParts | scraper/fbref_players_scraper.py:413-435 | a non-text birthplace gives no city and no country; text always gives a clean country; a city needs a comma, is clean, and differs from the country |
| Players.CleanBirthplace | scraper/fbref_players_scraper.py:437-445 | an unknown return value raises ValueError; 'city' and 'country' return that part |
| Players.PlaceFields | scraper/fbref_players_scraper.py:414-416 | "in City, Country" splits at the comma into its two fields |
| Players.InCityKept | scraper/fbref_players_scraper.py:426-427 | a plain city name passes the quote and dash steps unchanged |
| Players.SpacedCountryKept | scraper/fbref_players_scraper.py:417 | a clean country passes the quote step unchanged |
| Players.StripSpaced | scraper/fbref_players_scraper.py:419 | stripping " country" gives the country |
| Players.PlaceParts | scraper/fbref_players_scraper.py:413-432 | "in City, Country" gives the cleaned city and country, the city dropped when both are equal |
| Players.CityTextOf | scraper/fbref_players_scraper.py:425-429 | a city without "in " inside it reads back from "in City" |
| Players.CountryTextOf | scraper/fbref_players_scraper.py:416-419 | a country without "in " inside it reads back |
| Players.BirthplaceReadsBack | scraper/fbref_players_scraper.py:413-435 | as written, city and country read back when neither contains "in" followed by whitespace |
| Players.DropInSpaceNoLonger | scraper/fbref_players_scraper.py:418-428 | `re.sub(r"in\s", "", …)` never lengthens the text |
| Players.DropInSpaceShorter | scraper/fbref_players_scraper.py:418-428 | a text holding "in" followed by whitespace anywhere comes out shorter |
| Players.CityNotReadBack | scraper/fbref_players_scraper.py:425-429 | as written, a city holding "in" followed by whitespace is not read back |
| Players.CountryNotReadBack | scraper/fbref_players_scraper.py:416-419 | as written, a country holding "in" followed by whitespace is not read back |
| Players.BirthplaceReadsBackExactly | scraper/fbref_players_scraper.py:413-435 | as written, a distinct plain city and clean country read back exactly when neither contains "in" followed by whitespace |
| Players.BeninCityText | scraper/fbref_players_scraper.py:428 | as written, the city "Benin City" is cleaned to "BenCity" |
| Players.BeninKept | scraper/fbref_players_scraper.py:426-427 | "in Benin City" passes the quote and dash steps unchanged |
| Players.BenCityStripped | scraper/fbref_players_scraper.py:429 | "BenCity" has no outer spaces |
| Players.BeninDrop | scraper/fbref_players_scraper.py:428 | `re.sub(r"in\s", "", …)` turns "in Benin City" into "BenCity" |
| Players.BeninDropLeading | scraper/fbref_players_scraper.py:428 | the leading "in " is removed |
| Players.BeninDropInside | scraper/fbref_players_scraper.py:428 | the "in " inside "Benin" is removed too |
| Players.BeninDropNin | scraper/fbref_players_scraper.py:428 | "nin City" loses its "in " |
| Players.BeninDropCity | scraper/fbref_players_scraper.py:428 | "City" has no "in" before a space |
| Players.BirthplaceAsWritten | scraper/fbref_players_scraper.py:413-432 | as written, "in Benin City, Nigeria" gives the city "BenCity" and the country "Nigeria" |
| Players.BeninPlain | scraper/fbref_players_scraper.py:413-432 | "Benin City" is a plain city name |
| Players.NigeriaPlain | scraper/fbref_players_scraper.py:413-432 | "Nigeria" is a clean country |
| Players.CityTextFixedOf | scraper/fbref_players_scraper.py:428 | the corrected cleaning reads any plain city back |
| Players.StripLeftSpaced | scraper/fbref_players_scraper.py:419 | stripping the left of " t" gives t |
| Players.DropLeadingInSpaced | scraper/fbref_players_scraper.py:418 | the corrected removal leaves " country" as the country |
| Players.CountryTextFixedOf | scraper/fbref_players_scraper.py:416-419 | the corrected cleaning reads a country back |
| Players.BirthplaceFixedReadsBack | scraper/fbref_players_scraper.py:413-435 | the corrected cleaning reads back every plain city and clean country |
| Players.FindUnit | scraper/fbref_players_scraper.py:467-474 | the first position where the unit follows a digit, or the end of the text |
| Players.DigitRunStart | scraper/fbref_players_scraper.py:467-474 | the start of the run of digits ending at a position |
| Players.DigitRunStartOf | scraper/fbref_players_scraper.py:467-474 | a run of digits starting after a non-digit is found from its end |
| Players.UnitDigits | scraper/fbref_players_scraper.py:467-474 | the match is all digits, and exists exactly when the unit follows a digit somewhere |
| Players.UnitDigitsAt | scraper/fbref_players_scraper.py:467-474 | the first unit after a digit run gives that run |
| Players.UnitValue | scraper/fbref_players_scraper.py:466-477 | the height or weight is a number read from a digit run of text, or NaN |
| Players.CleanHtWt | scraper/fbref_players_scraper.py:479-487 | an unknown return value raises ValueError; 'ht' gives centimetres and 'wt' kilograms |
| Players.HeightOfText | scraper/fbref_players_scraper.py:467 | "hcm, wkg" gives the height h |
| Players.WeightOfText | scraper/fbref_players_scraper.py:474 | "hcm, wkg" gives the weight w |
| Players.HeightWeightReadBack | scraper/fbref_players_scraper.py:447-487 | a height and a weight written as "hcm, wkg" read back as both numbers |
| Players.RawPlayerDict | scraper/fbref_players_scraper.py:103-122 | the scraped dict has the player keys in order, holding the parsed fields |
| Players.FromPairs | scraper/fbref_players_scraper.py:112-121 | keys with values give the dict with those keys |
| Players.CleanPlayersWith | scraper/fbref_players_scraper.py:125-145 | cleaning succeeds exactly when the date, birthplace and height keys exist (KeyError otherwise), sets the cleaned fields, keeps every other field, and appends 'birth_country' and 'weight' when new |
| Players.PlayerFields | scraper/fbref_players_scraper.py:140-144 | the five assignments set their fields, keep the others and append the new keys |
| Players.CleanPlayersSteps | scraper/fbref_players_scraper.py:125-145 | `clean_players` step by step |
| Players.CleanPlayersWithOk | scraper/fbref_players_scraper.py:125-145 | with the keys present the clean is the five assignments of the cleaned values |
| Players.ScrapeCleanData | scraper/fbref_players_scraper.py:60-122 | a page that could not be read gives None, which fails with TypeError |
| Players.ScrapeCleanDataShape | scraper/fbref_players_scraper.py:60-145 | a scraped player has the player keys plus 'birth_country' and 'weight', with the cleaned fields |
| Players.CleanedRawKeys | scraper/fbref_players_scraper.py:112-145 | a dict with the scraped keys always cleans, adding 'birth_country' and 'weight' |
| Patterns.RunLength | scraper/fbref_scraper.py:580 | the run of class characters from a position is maximal: all in the class and followed by the end or a character outside it |
| Patterns.MatchAt | scraper/fbref_scraper.py:580 | a match at a position is a valid group and the text there reads prefix, group, '/' |
| Patterns.FirstMatchFrom | scraper/fbref_scraper.py:580-583 | a match found from a position is a valid group |
| Patterns.FirstMatch | scraper/fbref_scraper.py:580-583 | `re.findall(p, url)[0]` is a valid group |
| Patterns.FirstMatchFromIsLeftmost | scraper/fbref_scraper.py:580-583 | the search finds a match exactly when some position matches, and returns the leftmost one |
| Patterns.FirstMatchFromNone | scraper/fbref_scraper.py:580-587 | no match found means no position matches |
| Patterns.FirstMatchFromFound | scraper/fbref_scraper.py:580-583 | a found match is the match at the first matching position |
| Patterns.FirstMatchOfId | scraper/fbref_scraper.py:580-583 | a link starting "prefix/id/" gives back the id |
| Patterns.RunOfId | scraper/fbref_scraper.py:580 | a run of class characters followed by a non-class character has its own length |
| Patterns.FirstHitIsFirst | scraper/fbref_scraper.py:579-585 | some pattern hits exactly when the loop returns a hit, and it is the hit of the first pattern that matches |
| Patterns.ParsePatternFromUrl | scraper/fbref_scraper.py:556-587 | an empty pattern list leaves `match` unbound (UnboundLocalError); otherwise the first pattern's hit, or None |
| Patterns.ParseOnePattern | scraper/fbref_scraper.py:579-587 | with one pattern the result is that pattern's match |
| Text.Split | scraper/fbref_matches_scraper.py:381 | `str.split` gives at least one part |
| Text.JoinSplit | scraper/fbref_matches_scraper.py:381 | joining the parts of a split with the separator gives the text back |
| Text.SplitJoin | scraper/fbref_matches_scraper.py:381 | splitting the join of parts without the separator gives the parts back |
| Text.StripEnds | scraper/fbref_scraper.py:520-525 | `strip()` leaves no whitespace at either end |
| Text.StripNoop | scraper/fbref_scraper.py:520-525 | a text without whitespace at its ends is unchanged by `strip()` |
| Text.Lower | scraper/fbref_scraper.py:804 | `lower()` keeps the length and lowers each character |
| Text.NatToStringValue | scraper/fbref_scraper.py:775 | the decimal text of a number reads back as that number |
| Text.ParseIntOfNat | scraper/fbref_scraper.py:775 | `int()` of the decimal text of a number is that number |
| Text.ParseIntWithoutDigits | scraper/fbref_scraper.py:775 | a text without digits does not convert to an int |
| Text.IntTextIsFloatText | scraper/fbref_scraper.py:775-778 | a text that converts to int also converts to float |
| Values.Len | scraper/fbref_matches_scraper.py:168 | `len` succeeds exactly on an iterable value, giving the number of its items, and raises TypeError otherwise |
| Values.IndexOrNull | scraper/fbref_matches_scraper.py:328-333 | an index inside a `try` gives the item, or None when indexing fails |
| Values.MapResult | scraper/fbref_scraper.py:775 | a list comprehension succeeds exactly when every element converts, giving one converted item per element |
| Values.MapOver | scraper/fbref_scraper.py:775 | mapping over a value gives a list as long as the value's items, and succeeds on a list whose every item converts |
| Values.Append | scraper/fbref_matches_scraper.py:170 | `append` succeeds exactly on a list and adds the item at its end |

## Left out

- HTTP and HTML: `scrape_data_requests`, `get_all_tables`, `get_commented_tables` and the BeautifulSoup navigation inside `parse_table_rows` and `parse_row_data` are not modelled. A page is a `seq<Table>` of captions, rows, cell texts and hrefs.
- The `fetch` and `page` parameters (`TeamMatchStats.ScrapeAllTeamMatchStats`, `PlayerMatchStats.ScrapeAllPlayerMatchStats`, `Matches.ScrapeCleanData` and the other scrape functions) stand for fetching a URL and extracting its tables. Network errors, redirects and the HTML itself are not captured.
- Finder: the caption regexes (`^Scores\s&\sFixtures`, the stat-table and standings patterns) are unconstrained `string -> seq<string>` parameters standing for `re.findall`. Nothing is proved about what a particular regex matches.
- Matcher: a general href regex is an unconstrained `string -> Option<string>` parameter. Only the fixed id patterns of `Patterns` are written out character by character.
- Captions: the four category regexes of the leagues scraper are `Finder` parameters, with the same limits as Finder.
- DateParser: stands for `datetime.strptime(…, '%B %d, %Y')` followed by `strftime('%Y-%m-%d')`. Which month names and day formats it accepts is not modelled.
- CleanDob: maps every non-text raw value to None. The source first does `str(dob_raw)`, so a non-text value whose printed form holds an ISO date would come back unchanged. The scraper only ever passes text or None, and None gives None in both.
- CheckRounds: returns the distinct rounds in order of first appearance. The source's `list(set(…))` (scraper/fbref_ls_details_scraper.py:198) has no defined order, so only the set of rounds is faithful.
- Float: a float cell keeps its text. `float("180")` is 180.0 in Python but stays "180" here, and float rounding, `inf` and `nan` texts are not modelled. NaN (`np.nan`) is None (`Null`).
- ToInt: a `Float` value raises TypeError, whereas Python's `int()` truncates a float. The scrapers only pass `int()` text, None and integers (scraper/fbref_scraper.py:775), so no call in the model reaches this case.
- IsDigit: models only '0'-'9', whereas Python's `\d` and `int()` accept every Unicode decimal digit.
- IsWordChar: models only ASCII letters, digits and '_', whereas Python's `\w` on `str` is Unicode-aware.
- Lower: lowers only 'A'-'Z', whereas `str.lower()` lowers every cased Unicode character.
- ParseInt: accepts surrounding whitespace, an optional sign and ASCII digits. Python's `int()` also accepts `_` between digits and non-ASCII digits.
- `time.sleep` rate limiting and `print` calls are left out because they are timing and console output.
- Loading the JSON column maps and league registries (`set_column_map`, `set_league_adv_type`): the column map, `meta_data` and the advanced-stats registry are parameters.
- `scrape_stats_from_cup` (scraper/fbref_team_season_stats_scraper.py:225-264) is not part of this model. It fetches one page per stat id, and only the league path's stat-id binding is modelled.
- The `parse_*` methods of the players scraper (scraper/fbref_players_scraper.py:147-367) are DOM navigation. Their results come in as a `PlayerInfo` value.
- `app.py` and `lambda_function.py` are not part of this model because they are the REST and serverless glue.
- In-place mutation and aliasing: `delete_dict_keys`, `rename_dict_key`, `convert_dict_dtypes` and the category cleaners mutate the dict they are given, and the source always reassigns or discards it. The model returns the new dict, so aliasing between a caller's dict and the cleaned one is not captured.

## Findings

| source | as written | input that shows it | evidently intended | confidence | as-written member | corrected member |
|---|---|---|---|---|---|---|
| scraper/fbref_matches_scraper.py:223 | the away score is `clean_score(x)[0]`, the home goals | score "2-1" gives home 2 and away 2 | away score `clean_score(x)[1]` | not executed | Matches.LeagueScoresAsWritten, Matches.AwayScoreAsWritten | Matches.LeagueScoresFixed |
| scraper/fbref_teams_scraper.py:220 | the roster data is sliced `[:-totals_rows]` | a roster without a "Total" row: `[:-0]` is empty, so every player is lost | drop the last `totals_rows` records only when there are some | not executed | Teams.CleanRosterWithoutTotals | Teams.CleanRosterFixed, Teams.CleanRosterFixedKeepsPlayers |
| scraper/fbref_players_scraper.py:418-428 | `re.sub(r"in\s", "", …)` removes every "in" followed by a space | "in Benin City, Nigeria" gives the city "BenCity" | remove only the leading "in " | not executed | Players.BirthplaceAsWritten, Players.BeninCityText | Players.BirthplaceFixedReadsBack |
| scraper/fbref_leagues_scraper.py:66-70 | the ValueError fires only when every value of the cleaned dict is None, but the only value is the list under 'data' | a country with no tracked competition returns `{'data': []}` | raise ValueError when the cleaned data is empty | not executed | Leagues.ScrapeCleanDataNeverRejects, Leagues.ScrapeCleanDataOfNoLeagues | Leagues.ScrapeCleanDataFixed, Leagues.ScrapeCleanDataFixedRejectsEmpty |
| scraper/fbref_ls_details_scraper.py:152-154 | `'Round' in rounds` is evaluated when `check_rounds` returned None | a fixtures table without a 'round' column raises TypeError | skip the removal when there are no rounds | not executed | LeagueSeasonDetails.DropRoundLabel, LeagueSeasonDetails.CleanLeagueSeasonDetailsWithoutRounds | LeagueSeasonDetails.DropRoundLabelFixed, LeagueSeasonDetails.CleanLeagueSeasonDetailsFixedRecord |

The model also pins down as-written behaviour that is recorded but not claimed as a bug, since the intended behaviour is not evident from the source:
- Matches.HomeAndAwayMisaligned: a row with a single squad id leaves the home ids longer than the away ids (scraper/fbref_matches_scraper.py:328-333).
- PlayerMatchStats.IdsUpToLengths: the same misalignment of team ids in the player match scraper.
- TeamSeasonStats.BasicLeagueFourTablesFails: a basic league with four stat tables reaches `remove('passing')` on a list without it and raises ValueError.
- TeamSeasonStats.CleanTeamSeasonStatsEmpty: with no categories the result variable is never bound, which raises UnboundLocalError.
