# Sankey data preparation of the salary visualisation

The salary visualisation (`Homework2/etqpham/main.js`) draws a Sankey diagram of salary
records flowing from experience level to job group to company size. Its one piece of
original logic is the data preparation behind that diagram, and that is what this
project models and proves things about:

- **Job-title classifier** (`jobTitleGroups`, `mapJobTitle`): a static table of six
  groups (Engineer, Analyst, Scientist, Manager, Consultant, Other), each with a list of
  exact job titles. The scan visits the groups in declaration order and returns the first
  group whose list holds the title. A title in no list yields "Other". Matching is exact
  and case-sensitive. The comment above `mapJobTitle` speaks of checking whether the title
  "contains the word", but the code tests exact membership in each list
  (`titles.includes(title)` on an array). The model follows the code.
- **Flow-graph builder** (`prepareSankeyData`):
  - The node list is the distinct experience levels, then the distinct job groups, then
    the distinct company sizes. Each segment keeps first-seen order, as
    `Array.from(new Set(...))` does.
  - `nodeIndex` resolves a label to the position of the first node carrying it, or -1.
  - Two counting rollups (`d3.rollup(data, v => v.length, k1, k2)`) are flattened by
    nested loops into `links1` (experience level to job group) and `links2` (job group
    to company size). The result is `{nodes, links: links1 ++ links2}`.

Files:

- `distinct.dfy`, module `Distinct`: insertion-ordered de-duplication (`Dedup`) and the
  first-seen order it keeps.
- `jobtitles.dfy`, module `JobTitles`: the table, the first-match scan (`FindGroup`) and
  `MapJobTitle`.
- `rollup.dfy`, module `Rollups`: `d3.rollup` with a counting reducer, as a value built
  record by record. It comes with a flattened view (`Entries`) and its proofs against a
  reference description read directly off the records.
- `sankey.dfy`, module `Sankey`: records, nodes, `NodeIndex`, the flattening loops
  (`FlattenRollup`), `PrepareSankeyData`, and the flow properties.

`d3.rollup` is library code whose source is not part of this model. It is modelled by
its documented behaviour:
- outer keys in first-seen order;
- inner keys in first-seen order within each outer bucket;
- values are bucket sizes.

The imperative part of `prepareSankeyData` is the `for ... of` loops that push links.
It is a method with loop invariants. The rest (sets, `map`, `concat`, `findIndex`,
`mapJobTitle`) is expressions and becomes functions.

## Model

| member | source | states |
|---|---|---|
| `JobTitles.FindGroup` | Homework2/etqpham/main.js:210-214 | returns the index of the first group, in table order, whose list holds the title exactly; returns None exactly when no list holds it |
| `JobTitles.MapJobTitle` | Homework2/etqpham/main.js:209-216 | the result is one of the six group keys; it is the name of the first group whose list holds the title; it is "Other" when no list holds the title |
| `JobTitles.TableOrder` | Homework2/etqpham/main.js:200-207 | the table's groups are declared in the order Engineer, Analyst, Scientist, Manager, Consultant, Other |
| `JobTitles.ListsDisjoint` | Homework2/etqpham/main.js:200-207 | no title is listed under two groups |
| `JobTitles.ListedTitleMapsToItsGroup` | Homework2/etqpham/main.js:200-216 | every title in a group's list is classified into that group |
| `JobTitles.ClassifierListedExample` | Homework2/etqpham/main.js:203 | "Data Scientist" is classified as Scientist |
| `JobTitles.ClassifierCaseSensitiveExample` | Homework2/etqpham/main.js:211 | "data scientist" falls back to Other: matching is case-sensitive |
| `JobTitles.ClassifierUnknownExample` | Homework2/etqpham/main.js:215 | "Mystery Title" falls back to Other |
| `Distinct.Dedup` | Homework2/etqpham/main.js:220-222 | `Array.from(new Set(xs))` has no duplicates, holds exactly the elements of `xs`, and is no longer than `xs` |
| `Distinct.DedupFirstSeenOrder` | Homework2/etqpham/main.js:220-222 | the distinct elements are listed in the order of their first occurrence in `xs` |
| `Distinct.FirstIndex` | Homework2/etqpham/main.js:220-222 | the first occurrence of an element: it holds the element and no earlier position does |
| `Sankey.NodeSegments` | Homework2/etqpham/main.js:220-223 | nodes are experience levels, then job groups, then company sizes; each segment is duplicate-free, holds exactly its column's labels, and keeps first-seen order |
| `Sankey.NodeNames` | Homework2/etqpham/main.js:220-223 | the node labels: the three de-duplicated segments concatenated; their order and contents are stated by `Sankey.NodeSegments` |
| `Sankey.Nodes` | Homework2/etqpham/main.js:223 | one `{name}` node per node label, in the same order, as stated by `Sankey.NodeSegments` |
| `Sankey.NodeIndex` | Homework2/etqpham/main.js:225-227 | returns -1 exactly when no node has the label; otherwise a valid position whose node has the label, with no earlier node having it |
| `Sankey.NodeIndexInSegments` | Homework2/etqpham/main.js:223-227 | a label is found in the first segment that holds it; it is -1 when no segment holds it |
| `Sankey.NodeIndexSegment` | Homework2/etqpham/main.js:223-227 | a label shared by two categories resolves into the earlier segment, so a company size named like an experience level attaches to the experience-level node |
| `Sankey.LabelHasNode` | Homework2/etqpham/main.js:220-227 | every record's experience level, job group and company size has a node, so `nodeIndex` never returns -1 for them |
| `Rollups.Rollup` | Homework2/etqpham/main.js:230-234 | the value of `d3.rollup(data, v => v.length, k1, k2)`, built record by record; its keys, inner keys and counts are stated by `Rollups.RollupOuterKeys`, `Rollups.RollupInnerKeys`, `Rollups.RollupCounts` and `Rollups.RollupFlattened` (the second rollup, lines 248-252, is the same function on the other column pair) |
| `Rollups.RollupOuterKeys` | Homework2/etqpham/main.js:230-234 | the rollup's outer keys are the distinct outer labels in first-seen order |
| `Rollups.RollupInnerKeys` | Homework2/etqpham/main.js:230-234 | within an outer key's bucket, the inner keys are the distinct inner labels of that key's records, in first-seen order |
| `Rollups.RollupCounts` | Homework2/etqpham/main.js:231 | the count stored for a key pair is the number of records with that pair |
| `Rollups.RollupTotal` | Homework2/etqpham/main.js:230-234 | the counts of a rollup add up to the number of records |
| `Rollups.RollupFlattened` | Homework2/etqpham/main.js:230-245 | the flattened rollup has exactly one triple per distinct key pair of the records; its count is that pair's number of records, at least 1; the counts sum to the record count |
| `Rollups.EntriesLookup` | Homework2/etqpham/main.js:237-238 | each flattened triple is an entry the nested maps really hold, with the count they store |
| `Rollups.EntriesDistinct` | Homework2/etqpham/main.js:237-238 | flattening a rollup whose keys are unique on both levels lists no key pair twice |
| `Rollups.EntriesCover` | Homework2/etqpham/main.js:237-238 | every key pair stored in the nested maps is flattened into a triple |
| `Sankey.FlattenRollup` | Homework2/etqpham/main.js:236-245 | the nested loops push, outer key by outer key and inner key by inner key, one link per inner entry: source and target are the `nodeIndex` of the two keys and the value is the count |
| `Sankey.PrepareSankeyData` | Homework2/etqpham/main.js:219-269 | nodes are the three segments; links are `links1` followed by `links2`; every source and target is a valid node position; empty input gives no nodes and no links |
| `Sankey.FlowLinkEndpoints` | Homework2/etqpham/main.js:239-242 | every link joins valid node positions whose labels are the link's key pair |
| `Sankey.FlowLinkValues` | Homework2/etqpham/main.js:230-245 | each link's value is the number of records with its label pair, so at least 1 |
| `Sankey.FlowLinksDistinct` | Homework2/etqpham/main.js:230-245 | no two links of one flow join the same ordered pair of nodes |
| `Sankey.FlowLinksCover` | Homework2/etqpham/main.js:230-263 | every record is carried by a link of each flow: the link joining the nodes of its two labels |
| `Sankey.FlowConservation` | Homework2/etqpham/main.js:230-263 | the values of `links1` add up to the number of records, and so do those of `links2` |
| `Sankey.RepeatedPathGraph` | Homework2/etqpham/main.js:219-269 | two identical records and a third whose six labels all differ give the six nodes in segment order and, per flow, the repeated path with value 2 followed by the other path with value 1 |
| `Sankey.ExampleGraph` | Homework2/etqpham/main.js:219-269 | two entry-level data scientists at small companies and one senior data engineer at a medium company give the nodes EN, SE, Scientist, Engineer, S, M; the links are EN to Scientist (2), SE to Engineer (1), Scientist to S (2), Engineer to M (1) |

## Left out

- All rendering: the SVG container, scales, axes, bar and donut charts, the Sankey layout (`d3.sankey()`), link colouring, node fill colours, labels and tooltips. These are calls into the charting library and the DOM.
- CSV loading, the `+d.salary_in_usd` coercion and the `.catch` logging. These are asynchronous I/O and JavaScript number coercion. `Sankey.Record` therefore has no salary field: the diagram's data preparation never reads it.
- The mean-salary rollups for the bar and donut charts, and the ascending sort by average. These are floating-point means used only for drawing.
- The layout and margin constants and the reads of the window size. These are browser state and plain arithmetic.
- `d3.rollup` itself is library code. It is modelled by the value it returns (`Rollups.Rollup`), not by the library's implementation. Only the counting reducer `v => v.length` is modelled, because it is the only reducer `prepareSankeyData` passes.
- Node objects are modelled as values (`Sankey.Node`). The object identity of the `{name}` records, which the layout library later mutates, is not modelled.
- Records with missing fields (`undefined` in JavaScript) are not modelled. Every field is a string.
