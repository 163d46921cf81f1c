# edith-sdk line-code catalogue and allocators in Dafny

This project models the small core of the zepben edith-sdk Python package.

The main part is the line-code catalogue of
`src/zepben/edith/linecode_catalogue.py`:

- the `LC` record: name, phase count, normal and emergency current ratings,
  zero- and positive-sequence resistance and reactance, and a high-voltage
  flag that defaults to false;
- `LINECODE_CATALOGUE`, a fixed table of 74 conductor types;
- `get_linecode_to_parameters_catalogue`, which returns the table stably
  sorted by normal current rating (Python's `sorted` with
  `key=lambda x: x.norm_amps`).

The second part is the allocator plumbing of `src/zepben/edith/__init__.py`:

- `do_nothing_allocator`;
- `distribution_transformer_proportional_allocator_creator`, which checks the
  proportion and returns an allocator that does nothing;
- the `_create_synthetic_feeder` stub, which returns an empty network service
  without running the allocator it is given. That allocator may be any
  callable, so the model also has an allocator supplied by the caller, which
  may change the feeder or fail.

Files:

- `linecode_catalogue.dfy` (module `LinecodeCatalogue`): the `LC` datatype
  and the table, written entry for entry with the source's values. The table
  is split into ten consecutive runs of one conductor family each, grouped
  into a high-voltage half (lines 22-63) and a low-voltage half (lines
  64-95). This split is only so that facts about the table can be proved run
  by run. The table is still one `seq<LC>` in declaration order.
- `stable_sort.dfy` (module `NormAmpsSort`): the sort, as an insertion sort
  on sequences. It comes with an independent definition of "a stable sort
  by rating", `IsStableSortOf`. That definition says the result is sorted,
  and for every rating `k` the entries rated `k` appear in the same order as
  in the input (`WithAmps`). The two definitions are proved to agree, and a
  stable sort is proved to be unique.
- `linecode_parameters.dfy`:
  - module `CatalogueOrder`: what every stable sort of this particular
    table looks like;
  - module `LinecodeParameters`: `get_linecode_to_parameters_catalogue`
    itself, and the proof that its result is that sort.
- `edith.dfy` (module `Edith`): the allocators, the factory's range check
  with its `ValueError`, and the synthetic-feeder stub.

`LC` declares its ratings `float`, but a dataclass does not convert what it
is given. The entries on lines 64-95 give integer ratings, for example
`norm_amps=105`, and Python compares those exactly with the floats of the
other entries. The model uses exact `real` decimals for every rating. The
ratings are only ever compared, and any two distinct ratings in the table are
far apart, so the order is the same either way.

The factory's docstring says the proportion "must be between 1 and 100", but
the code rejects 1 (`not 1 < proportion <= 100`). The model follows the code.
`Edith.CreatorAcceptsDocumentedRangeExceptOne` states the difference exactly.

## Model

| member | source | states |
|---|---|---|
| `LinecodeCatalogue.CatalogueEntriesValid` | src/zepben/edith/linecode_catalogue.py:21-96 | The table has 74 entries; every entry has 1, 2 or 3 phases and an emergency rating no lower than its normal rating |
| `LinecodeCatalogue.CatalogueHvSplit` | src/zepben/edith/linecode_catalogue.py:19-95 | An entry is high-voltage exactly when it is one of the first 42 (lines 22-63); the 32 entries from line 64 on omit `hv` and take the default, false |
| `LinecodeCatalogue.CatalogueNamesDistinct` | src/zepben/edith/linecode_catalogue.py:22-95 | No two entries of the table share a name |
| `LinecodeCatalogue.CatalogueRatings` | src/zepben/edith/linecode_catalogue.py:22-95 | Every rating lies between 94.03 A and 747 A. Exactly entries 27-29 are rated 94.03 A and only entry 47 is rated 747 A. Exactly entries 42, 49 and 56 (lines 64, 71, 78) share 105 A, and exactly the three Flourine entries are rated 165.38 A |
| `LinecodeCatalogue.CatalogueNamedEntries` | src/zepben/edith/linecode_catalogue.py:49-78 | The names of the entries the sorted order singles out: the three Rosella conductors (3W, 2W, 1W), `AAAC:19/4.75`, and the three 105 A entries |
| `NormAmpsSort.SortByNormAmps` | src/zepben/edith/linecode_catalogue.py:105 | The sort's result is nondecreasing in normal rating and is a permutation of its input: same multiset, same length |
| `NormAmpsSort.Insert` | src/zepben/edith/linecode_catalogue.py:105 | Inserting one entry adds exactly that entry to the multiset of entries |
| `NormAmpsSort.InsertSorted` | src/zepben/edith/linecode_catalogue.py:105 | Inserting into a sorted sequence keeps it sorted |
| `NormAmpsSort.InsertWithAmps` | src/zepben/edith/linecode_catalogue.py:105 | Inserting an entry puts it in front of the entries of its own rating and leaves every other rating's entries as they were |
| `NormAmpsSort.SortIsStable` | src/zepben/edith/linecode_catalogue.py:105 | For every rating, the entries with that rating appear in the result in their input order |
| `NormAmpsSort.SortedGroupsDetermine` | src/zepben/edith/linecode_catalogue.py:105 | Two sorted sequences that agree on the order of the entries of every rating are equal, so a stable sort has only one possible result |
| `NormAmpsSort.SortMeetsReference` | src/zepben/edith/linecode_catalogue.py:105 | A sequence is a stable sort of the input (sorted, with every rating's entries in input order) if and only if it is what the insertion sort returns |
| `NormAmpsSort.StableSortIsPermutation` | src/zepben/edith/linecode_catalogue.py:105 | A stable sort holds exactly the entries of its input, each as often, so `sorted` neither drops nor duplicates a line code |
| `NormAmpsSort.SortOfSorted` | src/zepben/edith/linecode_catalogue.py:105 | Sorting an already sorted sequence returns it unchanged |
| `NormAmpsSort.SortIdempotent` | src/zepben/edith/linecode_catalogue.py:105 | Sorting the result of a sort again gives the same sequence |
| `NormAmpsSort.SameGroupsSameMembers` | src/zepben/edith/linecode_catalogue.py:105 | A stable sort holds only entries of its input |
| `NormAmpsSort.StableSortStartsWithLowestGroup` | src/zepben/edith/linecode_catalogue.py:105 | A stable sort begins with the input's lowest-rated entries, in their input order |
| `NormAmpsSort.StableSortEndsWithTop` | src/zepben/edith/linecode_catalogue.py:105 | A stable sort ends with the input's single highest-rated entry |
| `CatalogueOrder.CatalogueFloor` | src/zepben/edith/linecode_catalogue.py:49-51 | Every table entry is rated at least 94.03 A, and the entries rated 94.03 A are the three Rosella entries in declaration order |
| `CatalogueOrder.CatalogueCeiling` | src/zepben/edith/linecode_catalogue.py:69 | Every table entry is rated at most as high as `AAAC:19/4.75`, and it is the only entry with its rating |
| `CatalogueOrder.StableSortOfCatalogueStartsWithRosella` | src/zepben/edith/linecode_catalogue.py:105 | The first three entries of the sorted table are the Rosella entries of lines 49-51, in the order 3W, 2W, 1W |
| `CatalogueOrder.StableSortOfCatalogueEndsWithAaac19` | src/zepben/edith/linecode_catalogue.py:105 | The last entry of the sorted table is `AAAC:19/4.75` (line 69) |
| `CatalogueOrder.StableSortOfCatalogueKeepsTiesInOrder` | src/zepben/edith/linecode_catalogue.py:105 | In the sorted table the 105 A entries keep their declaration order (lines 64, 71, 78), and so do the Flourine entries (lines 22-24) |
| `LinecodeParameters.GetLinecodeToParametersCatalogue` | src/zepben/edith/linecode_catalogue.py:99-106 | The result has 74 entries and is the table's stable sort by normal rating: sorted, with the entries of each rating in declaration order. It is therefore a permutation of the table, by `NormAmpsSort.StableSortIsPermutation` |
| `LinecodeParameters.SortedCatalogueIsOnlyStableSort` | src/zepben/edith/linecode_catalogue.py:105 | Any stable sort of the table equals the function's result, so the `CatalogueOrder` facts describe that result |
| `LinecodeParameters.SortedCatalogueIsFixedPoint` | src/zepben/edith/linecode_catalogue.py:105 | Sorting the result again returns it unchanged |
| `LinecodeParameters.SortedCatalogueDiffersFromTable` | src/zepben/edith/linecode_catalogue.py:105 | The result is not the table in declaration order, which is not sorted, so the function returns a new ordering |
| `Edith.Allocate` | src/zepben/edith/__init__.py:12-32 | Running `do_nothing_allocator` (lines 12-13) or the inner `allocator` of the proportional factory (lines 27-32) over an `LvFeeder` never raises and leaves the feeder's mRID and equipment unchanged. An allocator supplied by the caller gives whatever it returns or raises |
| `Edith.DistributionTransformerProportionalAllocatorCreator` | src/zepben/edith/__init__.py:16-34 | Succeeds exactly when 2 <= proportion <= 100. Otherwise it fails with `ValueError("Proportion must be between 1 and 100")`. On success it returns the proportional allocator with the given proportion and customers, which leaves every feeder unchanged |
| `Edith.CreatorAcceptsDocumentedRangeExceptOne` | src/zepben/edith/__init__.py:20-25 | Compared with the docstring's range 1..100: a proportion is accepted exactly when it is documented and is not 1 |
| `Edith.CreateSyntheticFeeder` | src/zepben/edith/__init__.py:37-49 | The call never raises, and the returned network service holds no objects |
| `Edith.SyntheticFeederIgnoresArguments` | src/zepben/edith/__init__.py:37-49 | The result is the same for every feeder mRID and every allocator, including the default one and any supplied by the caller |
| `Edith.SyntheticFeederNeverRunsAllocator` | src/zepben/edith/__init__.py:37-49 | The allocator is never run. An allocator that raises on every feeder still yields the empty service, where running it would have raised |

## Left out

- Numbers: the `LC` ratings and impedances are exact decimals, not the
  Python floats and integers of the source. They are only compared, never computed with. The resistance and
  reactance fields are carried in the table, and no property is stated about
  them.
- The docstring of `get_linecode_to_parameters_catalogue` promises a sorted
  dictionary keyed by line-code name. The code returns the sorted list, and
  the model follows the code.
- Mutation: `sorted` builds a new list and leaves `LINECODE_CATALOGUE` as
  declared. In the model the table is an immutable constant, so the table
  cannot change by construction. `SortedCatalogueDiffersFromTable` shows that
  the result is a different ordering.
- Aliasing: `LC` is a mutable dataclass (it is not `frozen`), and `sorted`
  returns a new list of the same `LC` objects as the table. Assigning to a
  field of a returned entry therefore changes `LINECODE_CATALOGUE`, and with
  it every later result. In the model, entries are immutable values, so this
  sharing is not modelled. Every result describes the table as declared.
- `LvFeeder` and `NetworkService` come from the external `zepben.evolve`
  package, which is not part of this model. An `LvFeeder` is reduced to its
  mRID and the mRIDs of its equipment, and a network service to the mRIDs of
  the objects it holds.
- Edith.Allocate: a Python allocator returns `None` and could change its
  feeder in place. The model returns the feeder as it is after the call, or
  the exception the allocator raised. For an allocator supplied by the
  caller, any change it makes is allowed and none is stated.
- The `self` client parameter of `_create_synthetic_feeder` is unused by the
  code and is not modelled. The same goes for its `async` form.
- The monkeypatching onto `NetworkConsumerClient` and
  `SyncNetworkConsumerClient`, and the event-loop wrapper
  `_sync_create_synthetic_feeder` (`src/zepben/edith/__init__.py:51-58`), are
  asynchronous plumbing over a foreign gRPC client.
- `proportion` is a Dafny `int`. Python does not enforce the `int` hint, and
  non-integer proportions are outside the model.
- The catalogue matcher, the NMI distribution, and
  `usage_point_proportional_allocator` are not defined in the modelled
  files, so they are not part of this model.
