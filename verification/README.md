# Trestus status engine in Dafny

A model of the status-classification and aggregation engine of TrestusDotNet.
This is the part of `Program.Main` that turns a Trello board snapshot into the
three structures the status-page template renders:

- **incidents**: one entry per incident card, with its severity, whether it is closed, its rendered description and its rendered comments;
- **panels**: for each severity, the service-name lists of the open incidents of that severity;
- **systems**: for each service, the status text and severity to show.

The modules follow the engine's parts:

- `Wrappers` (labels.dfy) holds `Nullable<T>`, the C# `T?`, with `??` as `OrElse`.
- `Seqs` (labels.dfy) holds one general fact about sequences, the associativity of concatenation, which the proofs below use.
- `Labels` (labels.dfy) is the label classifier.
  - A label is a status label when its name starts with `"status:"`. Every other label is a service label.
  - It also holds the case-insensitive parse of a status label's suffix into `Severity`.
- `Cards` (cards.dfy) is the card evaluator.
  - The severity scan has two early exits. The spec function `ScanSeverity` defines it, and the loop `ScanCardSeverity` is proved against that function.
  - It also defines a card's service names and the stable newest-first order of the cards in a list.
- `Aggregation` (aggregation.dfy) is the aggregator.
  - The pure fold `Step`/`Fold`/`BuildModel` is the specification.
  - Reference definitions give each output independently of the fold. `IncidentEntries` gives the incidents, `OpenPanel` the panels and `FirstOpenWriter` the systems. Lemmas connect each one to the fold.
  - The class `StatusBuilder` updates `incidents`, `panels` and `systems` in place, card by card and list by list, as `Main` does. Its methods are proved to compute the fold.
- `Scenarios` (scenarios.dfy) works through a one-card board in an open list, in `"fixed"` and in `"Fixed"`.

The model follows the code as written; in particular:

- A card is closed only when its list's name is exactly `"fixed"`. The comparison is ordinal and case-sensitive (Program.cs:149), so a list named `"Fixed"` holds open incidents. `Scenarios.CapitalisedFixedIsOpen` shows this.
- Back-fill gives every service label name an entry, including an empty name (Program.cs:194-204).
- A panel is a list of lists: each open incident adds its whole service-name list as one element (Program.cs:120, 157). The lists are not flattened.
- An incident (`CardDto`, Program.cs:50-56) carries the severity, the closed flag, the rendered description and the rendered comments. It carries no card name, creation date or service list.
- Comment initials are copied as they are (Program.cs:184). Nothing derives them from a full name.
- The systems map has one key per service label name only on a board whose label ids are unique and whose card labels are board labels (`Aggregation.WellFormed`). Without that, a card label with a service id but another name adds its own name.

## Model

| member | source | states |
|---|---|---|
| Labels.ServiceLabels | TrestusDotNet/Program.cs:114 | a label is a service label iff it is a board label whose name does not start with "status:" |
| Labels.ServiceIds | TrestusDotNet/Program.cs:115 | an id is a service id iff some board label with that id is a service label |
| Labels.StatusTypesAreStatusLabels | TrestusDotNet/Program.cs:116 | the labels that are not service labels are exactly the labels with the "status:" prefix, in board order |
| Labels.LabelPartition | TrestusDotNet/Program.cs:113-116 | service labels and status labels split the board's labels: as multisets they add up to all labels |
| Labels.RemoveSpaces | TrestusDotNet/Program.cs:136 | the result has no space, and a character occurs in it iff it is a non-space character of the input |
| Labels.RemoveSpacesCounts | TrestusDotNet/Program.cs:136 | as a multiset the result is the input with every space removed, so each other character keeps its count |
| Labels.RemoveSpacesAppend | TrestusDotNet/Program.cs:136 | removing spaces distributes over concatenation, so the remaining characters keep their order |
| Labels.RemoveSpacesKeepsSpaceless | TrestusDotNet/Program.cs:136 | a text without spaces is unchanged, so removing spaces twice is the same as once |
| Labels.ParseSeverityMatchesNames | TrestusDotNet/Program.cs:137 | a suffix parses to a severity iff it equals that member name ignoring case; it fails iff it matches no member name; a suffix and its lower-cased form parse alike |
| Labels.SpacedStatusLabelExample | TrestusDotNet/Program.cs:136-137 | "status: MinorOutage" parses to MinorOutage once the prefix and the space are removed |
| Labels.UnknownStatusLabelExample | TrestusDotNet/Program.cs:136-138 | "status: down" does not parse |
| Cards.ScanCardSeverity | TrestusDotNet/Program.cs:129-143 | the label loop, with its continue and two breaks, returns exactly ScanSeverity of the card's labels |
| Cards.ScanIgnoresServiceLabels | TrestusDotNet/Program.cs:133-134 | the scan's result depends only on the card's status labels, in order |
| Cards.ScanFirstStop | TrestusDotNet/Program.cs:137-141 | over status labels, the first label that fails to parse or is red decides the result |
| Cards.ScanNoStop | TrestusDotNet/Program.cs:130-142 | over status labels that all parse and are not red, the last label's severity is the result |
| Cards.ScanStopsAtUnparseable | TrestusDotNet/Program.cs:137-138 | if the first stopping status label fails to parse, the card's severity is None, because the failed parse resets it |
| Cards.ScanStopsAtRed | TrestusDotNet/Program.cs:140-141 | if the first stopping status label is red and parses, the card's severity is that label's severity |
| Cards.ScanWithoutStop | TrestusDotNet/Program.cs:129-142 | with no stopping label, the severity is the last status label's (last wins, not the maximum), or None without status labels |
| Cards.ScanIgnoresLabelsAfterStop | TrestusDotNet/Program.cs:137-141 | labels appended after a stopping label never change the result |
| Cards.ScanResultIsNamed | TrestusDotNet/Program.cs:129-142 | the scan's result is None or a severity that one of the card's status labels parses to |
| Cards.ServiceNames | TrestusDotNet/Program.cs:145 | a name is in the list iff some card label with a service id has that name |
| Cards.ServiceNamesSingle | TrestusDotNet/Program.cs:145 | one card label contributes exactly its name when its id is a service id, and nothing otherwise |
| Cards.ServiceNamesAppend | TrestusDotNet/Program.cs:145 | the names of concatenated labels are the concatenated names: card-label order is kept, one entry per matching label, duplicates included |
| Cards.NewestFirst | TrestusDotNet/Program.cs:125 | the ordered cards are a permutation of the list's cards |
| Cards.NewestFirstIsOrdered | TrestusDotNet/Program.cs:125 | the cards come out in descending creation date |
| Cards.NewestFirstIsStable | TrestusDotNet/Program.cs:125 | cards with equal creation dates keep their relative order (a stable sort) |
| Aggregation.BoardOrderCards | TrestusDotNet/Program.cs:123-126 | every processed card belongs to a list of the board and is tagged with that list's name |
| Aggregation.AddToPanel | TrestusDotNet/Program.cs:155-157 | the panel of the severity gains exactly the one given list, other panels are unchanged, and the panel is created on first use |
| Aggregation.RecordServices | TrestusDotNet/Program.cs:159-169 | every name gains an entry, existing entries are never overwritten, and every new entry is the given status |
| Aggregation.StepEffect | TrestusDotNet/Program.cs:145-152 | a skipped card changes nothing; an incident is appended; a closed incident leaves panels and systems unchanged |
| Aggregation.StepOpenIncident | TrestusDotNet/Program.cs:155-169 | an open incident has a non-None severity; its panel grows by its service-name list, other panels are unchanged, and new service entries carry its list name and severity |
| Aggregation.StepBucket | TrestusDotNet/Program.cs:155-157 | one card's effect on the panel of any severity |
| Aggregation.FoldAppend | TrestusDotNet/Program.cs:123-126 | processing two runs of cards one after the other is processing their concatenation |
| Aggregation.FoldIncidents | TrestusDotNet/Program.cs:126-190 | the fold appends one incident per incident card, in processing order, and nothing else |
| Aggregation.FoldPanels | TrestusDotNet/Program.cs:155-157 | each panel grows by the service-name lists of the open incidents of its severity, in processing order |
| Aggregation.FoldKeepsPanelsValid | TrestusDotNet/Program.cs:146-157 | the fold never creates a panel for None or an empty panel |
| Aggregation.FoldSystems | TrestusDotNet/Program.cs:159-169 | first writer wins: existing entries are kept, and a new entry is the list name and severity of the first open incident naming the service |
| Aggregation.FirstOpenWriterNamed | TrestusDotNet/Program.cs:145-169 | a service that receives an entry is named by some processed card |
| Aggregation.BuildModelSystems | TrestusDotNet/Program.cs:159-204 | a service's entry is its first open incident's, else Operational/None for a service label name, else absent |
| Aggregation.BuildModelPanels | TrestusDotNet/Program.cs:120-157 | no None panel and no empty panel; each panel is the service-name lists of the open incidents of that severity |
| Aggregation.BuildModelIncidents | TrestusDotNet/Program.cs:119-190 | the incidents are the incident cards in processing order (lists in board order, newest first), one each |
| Aggregation.NamedServiceIsServiceLabel | TrestusDotNet/Program.cs:145 | on a well-formed board, every service name any processed card yields, open or closed, is a service label name |
| Aggregation.OpenPanelElement | TrestusDotNet/Program.cs:155-157 | every element of a panel is the service-name list of a processed open incident of that panel's severity |
| Aggregation.PanelNamesAreServiceLabels | TrestusDotNet/Program.cs:145-157 | on a well-formed board every name stored in any panel is a service label name |
| Aggregation.CardServiceLabel | TrestusDotNet/Program.cs:115 | with unique ids, a board label that carries a service id is a service label |
| Aggregation.BuildModelSystemKeys | TrestusDotNet/Program.cs:194-204 | on a well-formed board the systems keys are exactly the service label names |
| Aggregation.RenderCardComments | TrestusDotNet/Program.cs:173-188 | each comment becomes its rendered text with its date and initials copied, in order |
| Aggregation.StatusBuilder.constructor | TrestusDotNet/Program.cs:119-121 | incidents, panels and systems start empty |
| Aggregation.StatusBuilder.ProcessCard | TrestusDotNet/Program.cs:128-190 | the in-place updates of one card equal Step on the old state; no panel for None is ever created |
| Aggregation.StatusBuilder.RecordSystems | TrestusDotNet/Program.cs:159-169 | the check-then-insert loop equals RecordServices on the old map and leaves incidents and panels alone |
| Aggregation.StatusBuilder.ProcessList | TrestusDotNet/Program.cs:125-126 | processing a list's cards newest first equals the fold over that list |
| Aggregation.StatusBuilder.ProcessLists | TrestusDotNet/Program.cs:123-124 | processing the lists in board order equals the fold over the whole processing order |
| Aggregation.StatusBuilder.BackFill | TrestusDotNet/Program.cs:194-204 | back-fill gives every service label name without an entry Operational/None and leaves all other state unchanged |
| Aggregation.BuildStatusModel | TrestusDotNet/Program.cs:113-204 | the whole computation returns BuildModel of the board, with valid panels and an entry for every service label name |
| Scenarios.OneCardModel | TrestusDotNet/Program.cs:145-204 | the full model of the one-card board, in an open list and in the "fixed" list |
| Scenarios.OpenIncidentExample | TrestusDotNet/Program.cs:153-169 | an open MinorOutage card gives one incident, the panel [["API"]] and API's entry {list name, MinorOutage} |
| Scenarios.FixedIncidentExample | TrestusDotNet/Program.cs:149-152 | the same card in "fixed" is a closed incident, there are no panels, and API is back-filled as Operational |
| Scenarios.CapitalisedFixedIsOpen | TrestusDotNet/Program.cs:149 | the same card in "Fixed" is an open incident, because the comparison is case-sensitive |

## Left out

- Fetching the board (TrelloClient.cs) is not modelled. The board is a value: labels, lists, cards and comments.
- Command-line and environment settings (Options.cs and Program.cs:60-100) are not modelled. They are I/O.
- Markdown rendering (Program.cs:172, 181) is the opaque function parameter `render`. Its output is not modelled.
- Template loading, Handlebars rendering and console output (Program.cs:207-229) are not modelled. They are presentation and I/O.
- Sentence-casing of severity names for display is not part of this model. It is not in Program.cs.
- Labels.ParseSeverityMatchesNames: only covers the four member names under ASCII case folding. `Enum.TryParse` also accepts numeric strings, comma-separated member lists, trimmed whitespace and non-ASCII case mappings; these are not modelled.
- Labels.StartsWith: is ordinal. The source's culture-sensitive `StartsWith` can differ on ignorable Unicode characters.
- Cards.NewestFirst: uses an integer sort key in place of `DateTime`. A comment's date is copied as `Nullable<int>`.
- Aggregation.BuildModelSystemKeys: holds only on a well-formed board, with unique label ids and card labels drawn from the board's labels. The source does not enforce either.
- Null names and null label or card collections are not modelled. In the source they raise exceptions.
- The order of dictionary entries is not modelled. The template enumerates `panels` and `systems` in insertion order; here they are maps.
- Labels.ServiceLabels: states membership, not the order of the labels. The order only affects the order of back-fill insertion, which the maps do not keep.
