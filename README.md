# Nessus-2-Excel3D, modelled in Dafny

Nessus-2-Excel3D turns a Nessus scan report into a two-sheet Excel
workbook. The "Overview" sheet is a matrix: one row per Critical, High,
Medium or Low issue seen at least once, one column per host with at least
one report item, and in each cell the `port/protocol` pairs where that
issue was seen on that host. The "Details" sheet has one row per Overview
row, with the issue's title, description, solution, plugin output and
severity name.
Every Overview title cell links to the matching Details row.

This project models the data-reshaping core of the script, between XML
parsing and the spreadsheet library:

- the severity table (id → name and colour);
- the load loop, which folds every report item into two insertion-ordered
  dictionaries: plugin id → issue and address → host record;
- the two sorts: issues by instance count, descending and stable; hosts
  by address string, ascending;
- the rendering of both sheets: the header rows, the walk over the
  severity tiers Critical, High, Medium and Low, the lockstep row pairs,
  the host cells and the running maximum title width;
- the hyperlink numbering.

The script is a chain of top-level loops that mutate state, and the model
keeps that form. `Load.LoadReport`, `Render.RenderSheets` (with
`Render.RenderTiers`, `Render.RenderTier` and `Render.IssueRows`) and
`Links.Hyperlinks` are methods with the script's loops and the
dictionaries, rows and counters they update. Each is proved equal to a
specification function (`Load.LoadSpec`, `Render.OverviewSheet`,
`Render.DetailsSheet`, `Render.MaxWidth`) or to a stated property. The
script's promises are then proved as lemmas about those functions.

Modelling choices:

- A Python dict is a `map` plus a sequence of its keys in insertion order,
  so that `.values()` (`Load.Values`, `Load.HostValues`) has the order
  Python gives it.
- `description`, `solution` and `evidence` are loop-carried variables
  (lines 76-81). An item without such an element keeps the previous
  item's text; if an item has several, the last one wins. They are
  `Option`s: `None` means the variable was never assigned. A report whose
  first item lacks one of them makes the script fail with a `NameError` at
  line 86. The model returns `Err(Unbound(name))` for that case
  (`LoadFacts.RunErrIff`).
- Python's `sorted` is modelled as a stable insertion sort over a total
  order (`Sorting.SortBy`). `Sorting.SortBySpec` proves the result is a
  permutation, ordered by the key, and keeps input order among equal
  keys. String order is `Strings.LexLe`, code point by code
  point.
- `Cols.index` returns the first matching position. The cell
  specification uses the first index too (`Render.IndexOf`), so it needs
  no distinctness assumption. With distinct columns it is the column of
  that address (`RenderFacts.CellContents`).

Two behaviours of the script are easy to misread:

- A host appears as an Overview column only if it has at least one report
  item. The host table is filled inside the item loop (lines 91-93), so a
  host the scan lists without items gets no column at all, not an empty
  one (`WorkbookFacts.ColumnsAreReportedHosts`,
  `Scenarios.OneCriticalOnFirstHost`).
- An item without `description`, `solution` or `plugin_output` inherits
  the previous item's text. Such texts are not empty. This applies to
  issue records and to host entries alike (`Scenarios.OnePluginOnTwoHosts`).

## Model

| member | source | states |
|---|---|---|
| Severity.Lookup | Nessus-2-Excel3D.py:29-35 | the table has exactly the ids 0..4, each with a non-empty name and a colour of six hexadecimal digits |
| Severity.NameInjective | Nessus-2-Excel3D.py:29-35 | different tiers have different names, so a severity cell identifies its tier |
| Render.ExtractIp | Nessus-2-Excel3D.py:25-26 | the address list has one entry per host record, the record's address, in order |
| Report.HostFindings | Nessus-2-Excel3D.py:66-70 | a host's findings are its items in document order, each tagged with the host's address and name |
| Report.FindingsCount | Nessus-2-Excel3D.py:66-70 | the loop visits exactly one finding per report item |
| Report.FindingIps | Nessus-2-Excel3D.py:66-70 | some finding carries an address exactly when a host with that address has at least one item |
| Load.Values | Nessus-2-Excel3D.py:98 | `plugins.values()` lists the issue of each key in insertion order |
| Load.HostValues | Nessus-2-Excel3D.py:99 | `hosts.values()` lists the record of each address in insertion order |
| Load.LastText | Nessus-2-Excel3D.py:76-81 | after `for e in elems: v = e.text`, v is the last text, or its old value when there are no elements; it is bound exactly when either exists |
| Load.RecordFinding | Nessus-2-Excel3D.py:84-95 | the two dictionaries and their key orders after one finding are those of `Record` |
| Load.LoadReport | Nessus-2-Excel3D.py:66-95 | the nested loops produce exactly `LoadSpec(report)`: the tables, or the error that stopped the loop |
| Load.StopsLoad | Nessus-2-Excel3D.py:66-86 | once an item fails, later items do not change the outcome |
| LoadFacts.RecordKeepsWf | Nessus-2-Excel3D.py:84-95 | recording one finding keeps the table invariant (unique keys, counter = occurrence count, every occurrence address has a host record) |
| LoadFacts.RunWf | Nessus-2-Excel3D.py:84-95 | after any number of findings the tables satisfy the invariant, so `instances == len(hosts) > 0` for every issue |
| LoadFacts.RunCarried | Nessus-2-Excel3D.py:76-81 | the carried texts are those left by the items read so far; after a successful item all three are bound |
| LoadFacts.CarryKeepsAssigned | Nessus-2-Excel3D.py:76-81 | a bound carried text stays bound whatever the next item holds |
| LoadFacts.RunErrIff | Nessus-2-Excel3D.py:76-86 | the load fails exactly when the first item lacks one of the three texts, and the error names the first unbound variable read |
| LoadFacts.RunKeyOrder | Nessus-2-Excel3D.py:84-93 | the plugin and host key orders are the first-encounter orders of plugin ids and addresses |
| LoadFacts.RunOccurrences | Nessus-2-Excel3D.py:84-88 | an issue's occurrence list is the findings with its plugin id, in scan order; an id that never occurs has no issue |
| LoadFacts.IssueFromFirstFinding | Nessus-2-Excel3D.py:84-86 | an issue's severity, title, description, solution and evidence are those current at the first finding with its plugin id |
| LoadFacts.HostFromFirstFinding | Nessus-2-Excel3D.py:91-93 | a host record keeps the host name of the first finding with its address |
| LoadFacts.RunHostIssues | Nessus-2-Excel3D.py:91-95 | a host's issue list has one entry per finding on that address, in scan order, with the texts current at that finding |
| LoadFacts.RecordCountsIssue | Nessus-2-Excel3D.py:84-88 | one finding adds exactly one to the total instance count |
| LoadFacts.RecordCountsHostIssue | Nessus-2-Excel3D.py:91-95 | one finding adds exactly one entry across all host issue lists |
| LoadFacts.RunTotals | Nessus-2-Excel3D.py:84-95 | the instance counts and the host issue-list lengths each sum to the number of findings |
| Sorting.SortBySpec | Nessus-2-Excel3D.py:98-99 | `sorted` returns a permutation, ordered by the key, and keeps input order among equal keys |
| Sorting.SortBySum | Nessus-2-Excel3D.py:98-99 | sorting keeps any per-element total |
| Sorting.SortByDistinctKeys | Nessus-2-Excel3D.py:99 | sorting keeps keys pairwise distinct |
| Order.AtLeastIsTotalOrder | Nessus-2-Excel3D.py:98 | `reverse=True` on instance counts sorts by a total order |
| Order.LexLeIsTotalOrder | Nessus-2-Excel3D.py:99 | string comparison is a total order |
| Order.SortIssuesSpec | Nessus-2-Excel3D.py:98 | the issue list is a permutation with non-increasing instance counts; issues with equal counts keep dictionary order |
| Order.SortHostsSpec | Nessus-2-Excel3D.py:99 | the host list is a permutation in ascending address order, with no address twice |
| Strings.LexTotal | Nessus-2-Excel3D.py:99 | any two strings compare one way or the other |
| Strings.LexTransitive | Nessus-2-Excel3D.py:99 | string comparison is transitive |
| Strings.LexAntisymmetric | Nessus-2-Excel3D.py:99 | strings that compare both ways are equal |
| Strings.JoinEmptyIff | Nessus-2-Excel3D.py:153-155 | a joined cell is empty exactly when there was nothing to join |
| Strings.JoinSnoc | Nessus-2-Excel3D.py:153-155 | appending an entry adds the separator only when the cell was not empty |
| Strings.Decimal | Nessus-2-Excel3D.py:229 | `str(row)` is a non-empty string of digits without a leading zero |
| Strings.ParseDecimalRoundTrip | Nessus-2-Excel3D.py:229 | the row number can be read back from its decimal text |
| Strings.DecimalInjective | Nessus-2-Excel3D.py:229 | different rows get different link texts |
| Render.IndexOf | Nessus-2-Excel3D.py:152 | `Cols.index` finds the first position of an address exactly when the address is present |
| Render.InsertFirstColumn | Nessus-2-Excel3D.py:121-122 | `insert_cols(idx=1)` puts an empty cell in front of every row |
| Render.HeaderByInsertion | Nessus-2-Excel3D.py:118-122 | appending the addresses and inserting two columns gives the header `['', ''] + Cols` |
| Render.PortProtocol | Nessus-2-Excel3D.py:155 | every cell entry is non-empty |
| Render.EntriesFor | Nessus-2-Excel3D.py:150-155 | no entry that goes into a cell is empty |
| Render.CellSnoc | Nessus-2-Excel3D.py:150-155 | one more occurrence changes only its own column's cell, adding the separator only when that cell was not empty |
| Render.TierSpec | Nessus-2-Excel3D.py:130-131 | a tier holds exactly the issues of that severity with at least one instance |
| Render.RenderedSpec | Nessus-2-Excel3D.py:129-131 | the rendered issues are exactly those with at least one instance whose severity is one of the walked tiers |
| Render.CellsSnoc | Nessus-2-Excel3D.py:150-155 | one more occurrence changes only the cell of the column its address is found at: the separator when that cell was not empty, then the entry |
| Render.IssueRows | Nessus-2-Excel3D.py:133-155 | the loop over an issue's occurrences builds its overview row and its details row |
| Render.AppendIssue | Nessus-2-Excel3D.py:133-157 | one rendered issue appends its overview row and details row in step and widens column B to its title when that is longer |
| Render.RenderTier | Nessus-2-Excel3D.py:130-157 | one pass over the issue list appends a tier's row pairs and updates the running width |
| Render.RenderTiers | Nessus-2-Excel3D.py:129-157 | walking the tiers appends the row pairs of every rendered issue, tier after tier |
| Render.RenderSheets | Nessus-2-Excel3D.py:111-157 | the overview and details sheets and column B's width are `OverviewSheet`, `DetailsSheet` and `MaxWidth` of the rendered issues |
| RenderFacts.SheetShape | Nessus-2-Excel3D.py:115-157 | both sheets have one row per rendered issue plus the header, rows pair up by position, each overview row has `NrOfHosts + 2` cells starting with the severity name and title, and each details row is `[title, description, solution, evidence, severity name]` |
| RenderFacts.SelectedIff | Nessus-2-Excel3D.py:129-131 | an issue gets a row exactly when it is Critical, High, Medium or Low and has an instance; Informational issues never do |
| RenderFacts.RenderedTierOrder | Nessus-2-Excel3D.py:129-131 | walking tiers in descending order yields rows in non-increasing severity |
| RenderFacts.SelectedTierOrder | Nessus-2-Excel3D.py:129-131 | Critical rows come before High, before Medium, before Low |
| RenderFacts.TierOfTier | Nessus-2-Excel3D.py:130-131 | a tier holds only issues of its own severity |
| RenderFacts.RenderedWithinTier | Nessus-2-Excel3D.py:129-131 | the rows of one severity are that tier, in list order |
| RenderFacts.SelectedWithinTier | Nessus-2-Excel3D.py:129-131 | within a tier the rows keep the sorted issue order |
| RenderFacts.RenderedLone | Nessus-2-Excel3D.py:129-131 | with distinct tiers, a single issue gets one row when its tier is walked and it has an instance, and none otherwise |
| RenderFacts.TierKeepsOrder | Nessus-2-Excel3D.py:130-131 | within a tier the instance counts stay non-increasing |
| RenderFacts.PortProtocols | Nessus-2-Excel3D.py:155 | one `port/protocol` entry per occurrence, in order |
| RenderFacts.EntriesForHost | Nessus-2-Excel3D.py:150-155 | with distinct columns, a cell's entries are those of the occurrences on that column's address |
| RenderFacts.OnHostEmptyIff | Nessus-2-Excel3D.py:150-155 | an issue has no occurrence on a host exactly when none of its occurrences carries that address |
| RenderFacts.CellContents | Nessus-2-Excel3D.py:150-155 | a cell is that host's `port/protocol` entries joined by `', \r\n'`, and it is empty exactly when the issue has no occurrence on the host |
| RenderFacts.OverviewRowAt | Nessus-2-Excel3D.py:133-157 | overview row r below the header is the row built for the r-th rendered issue |
| RenderFacts.OverviewCell | Nessus-2-Excel3D.py:150-155 | with distinct columns, overview row r's cell under host j lists the `port/protocol` of that row's issue on that host, and is empty exactly when there is none |
| RenderFacts.MaxWidthSpec | Nessus-2-Excel3D.py:137-138 | column B's width is at least 1 and every rendered title's length, and is 1 or one of those lengths |
| Links.DetailsTarget | Nessus-2-Excel3D.py:229 | `'#Details!A' + str(n)` targets details row n |
| Links.Hyperlinks | Nessus-2-Excel3D.py:226-231 | every overview row after the header gets one link; the link on row r has the text `'#Details!A' + str(r)`, which names details row r |
| Convert.ColumnsSpec | Nessus-2-Excel3D.py:115-117 | the host columns list every loaded host once, in ascending address order |
| Convert.IssuesSpec | Nessus-2-Excel3D.py:98 | the sorted issues are exactly the loaded ones, with non-increasing counts |
| Convert.OccurrencesHaveColumns | Nessus-2-Excel3D.py:150-152 | every occurrence's address is a column, so `Cols.index` never fails |
| Convert.ConvertTables | Nessus-2-Excel3D.py:98-231 | sorting, rendering and linking the loaded tables yield the sheets and width the specification functions define, and on overview row r the link text `'#Details!A' + str(r)` |
| Convert.ConvertReport | Nessus-2-Excel3D.py:66-231 | the script yields a workbook exactly when the load succeeds, and the load error otherwise |
| WorkbookFacts.ColumnsAreReportedHosts | Nessus-2-Excel3D.py:91-93 | a host is an overview column exactly when it has at least one report item |
| WorkbookFacts.Totals | Nessus-2-Excel3D.py:84-99 | the sorted issues' instance counts, and the sorted hosts' issue-list lengths, each sum to the number of report items |
| WorkbookFacts.WorkbookCells | Nessus-2-Excel3D.py:150-155 | in the finished workbook each host cell lists that host's occurrences of the row's issue, and is empty exactly when there are none |
| WorkbookFacts.WorkbookLinks | Nessus-2-Excel3D.py:226-231 | the link on each overview row leads to the details row of the same issue: the two rows are `OverviewRow` and `DetailsRow` of one selected issue, so they share title and severity name |
| Scenarios.OneCriticalOnFirstHost | Nessus-2-Excel3D.py:66-157 | two hosts with one Critical item on the first give one column, one overview row `Critical, title, 443/tcp` and one matching details row |
| Scenarios.OnePluginOnTwoHosts | Nessus-2-Excel3D.py:84-157 | one plugin id on two hosts gives one issue counted twice whose row fills both host cells; the second host's entry inherits the first item's texts |

## Left out

- Argument parsing and the `.nessus` extension check with its exit (lines 37-57): command-line handling, not data reshaping.
- XML parsing (lines 65-81): the report is an input value of hosts and items, and that type always carries every attribute the script reads. The script reads `host-ip`, the item attributes and `int(severity)` inside the load loop (lines 67-75), so a missing tag or attribute, or a non-numeric severity, raises `KeyError`, `AttributeError` or `ValueError` there, possibly after earlier items were recorded. Those paths are not represented.
- Convert.ConvertReport: "a workbook exactly when the load succeeds" holds for well-formed reports only, for the reason in the previous line.
- An element with no text gives `None` in Python. The model takes every text as a string, so an empty element reads as `""`. For `description`, `solution` and `plugin_output` this only changes the cell text. For an empty `host-ip` tag (line 67) it changes the outcome: in Python `ip` is `None`, and the host sort at line 99 raises `TypeError` once another host has a string address, while the model sorts `""` first and produces a workbook.
- All spreadsheet styling and output (lines 102-110, 160-223, 234): named styles, column widths, wrapping, freeze panes and saving are calls into openpyxl. The model stops at the cell values, the width computed for column B and the hyperlink targets.
- The conditional-formatting rules (lines 175-200) are Excel formulas that Excel evaluates. Only the severity colour table (lines 29-35) is kept.
- Console output (lines 160, 236).
- Render.RenderSheets: requires every occurrence address of a rendered issue to be in the column list. Otherwise the script raises `ValueError` at line 152. `Convert.OccurrencesHaveColumns` proves that loaded tables always meet this.
- Render.IssueRows: same requirement, for one issue.
- Render.AppendIssue: same requirement, for one issue.
- Render.RenderTier: same requirement, for the issues of one tier.
- Render.RenderTiers: same requirement, for the issues of every tier walked.
- Links.Hyperlinks: takes the overview sheet's row count as openpyxl's `max_row` and links rows 2 through that row. The model holds row values only, not openpyxl's cell objects.
