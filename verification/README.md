# Verification of Ant Farm's visible protocols

This project models, in Dafny, the protocols that the Ant Farm repository states in full outside its D
implementation, and proves their central claims for every size and every run.

- **Producer quotas** (`QuotaProtocol`, `QuotaSafety`, `QuotaAccounts`, `QuotaLiveness`, `QuotaSymmetry`,
  `QuotaDepth`, `QuotaExplorer`). Producers probe the ring's tail, scan forward slots, take a grant and
  reserve, while a consumer holds a moving range of epochs. The repository explores six small
  configurations for a bounded number of laps; here safety, liveness, the exactness of the admission
  bound and the negative control hold for every ring, segment size and quota vector and for unbounded
  runs. The safety proof keeps a probe tail per producer and the largest tail ever granted as witnesses,
  because a grant may land long after its probe. Accounts of every run say what the fields stand for:
  quota is conserved, and a grant follows a probe and a slot-by-slot scan. The breadth-first explorer is
  a method whose three answers, with their counts, are proved to mean what they say; the counterexample
  it reports is a shortest one, and its symmetry reduction is proved exact.
- **The RC11 litmus** (`Relations`, `Rc11`, `Rc11Coherence`, `Rc11Releases`, `Rc11Interleavings`,
  `Rc11Checker`, `SpannedAttach`, `SpannedWitness`, `SpannedStale`). The axioms and the program's tests
  of them are defined over arbitrary finite executions; the tests are methods proved to decide the
  axioms. Synchronises-with is related to chains of updates, and the last graph to interleavings of the
  threads. The spanned-attach program has any span length: with the successor acquire, or with a released
  count, its interior reads are always initialised, and an execution that attaches exists; without either
  a span with an interior has a consistent execution that attaches and reads nothing but uninitialised
  interiors.
- **Fork and join** (`ForkJoin`, `ForkJoinSchedules`, `ForkJoinLocality`, `ForkJoinRanges`). The
  pending-counter protocol as small steps that any participant may take next, for any program of
  callbacks. Every schedule gives one value and one count of runs, joins and finishes, each fork has its
  one join, and steps at different nodes commute. The midpoint loop and reduction and the two
  hand-written trees of the C test are instances.
- **The C++ ownership adapter** (the `Ownership` modules). Calls on different threads are interleaved at
  their atomic steps: reference-count operations, swaps, C calls, deletes. Counters are exact, each Farm
  is destroyed once and after its handles, nothing dangles and nothing leaks; and every factory, move and
  destructor is shown to do what it is for, for every answer of the C calls.
- **Scanners** (`ApiComments`, `CommentGrammar`, `CpuList`, `CodeSpans`). The comment stripper refines a
  pushdown automaton that reads one character at a time, and strips every line written by a grammar of
  code and nested comments to its code; CPU lists survive printing and parsing; code-span masking blanks
  exactly the spans of the pairing rule and is idempotent.

Two remarks on the source. `tests/farm/rc11_spanned_attach.py:139-140` says that the coherence shapes
equal irreflexivity of `hb;eco?` "for this program"; `Rc11Coherence.ShapesAreCoherence` shows it for
every program, given the atomicity and thin-air tests beside it. `include/antfarm_forkjoin.h:100-101`
says that equivalence to a serial fold needs an associative operation and an identity seed. Given an
identity seed, associativity is exactly what it needs (`ForkJoinRanges.AssociativityExact`); given
associativity the seed may be less than an identity: exactly when it vanishes between two terms the
equivalence holds (`ForkJoinRanges.SeedExact`).

`dafny verify dfyconfig.toml` checks the whole project.

## Model

| member | source | states |
|---|---|---|
| `QuotaSafety.StrictRunsSafe` | tests/farm/quota_model.py:39-76 | For every ring, segment size and admitted quota vector, in every reachable state of the strict protocol no enabled reservation enters an epoch congruent to a held one; the tail stays below the oldest pin's next lap, fewer than `k` epochs are held, and no balance exceeds its quota |
| `QuotaSafety.OracleExact` | tests/farm/quota_model.py:60-68 | The epoch-by-epoch oracle answers "pinned" exactly when the reservation reaches tail position `(oldest+k)*cap` |
| `QuotaSafety.StepSafe` | tests/farm/quota_model.py:43-76 | Every enabled step of every kind keeps the inductive invariant, with new probe tails and a new largest granted tail as witnesses |
| `QuotaSafety.ConsumerStepInv` | tests/farm/quota_model.py:44-47 | Pinning ahead or dropping the oldest epoch keeps the invariant, including that scans under way stay within one ring of the oldest epoch |
| `QuotaSafety.ProbeInv` | tests/farm/quota_model.py:59-60 | A probe at the current tail keeps the invariant: tail plus every claim stays within one `exmax` of the fresh probe |
| `QuotaSafety.ReserveInv` | tests/farm/quota_model.py:61-70 | A strict reservation moves quota from a balance to the tail without raising any bound of the invariant |
| `QuotaSafety.BlockedInv` | tests/farm/quota_model.py:73-74 | A blocked scan gives up its probe, keeping its balance (`QuotaAccounts.Conserved`), and keeps the invariant |
| `QuotaSafety.ScanZeroInv` | tests/farm/quota_model.py:75-76 | Passing an unpinned slot proves the oldest epoch has moved past it, although other producers may have been renewed since the probe |
| `QuotaSafety.GrantInv` | tests/farm/quota_model.py:71-72 | A grant may land long after its probe and still keeps the invariant: the scan has made room for every claim counted from its own tail |
| `QuotaSafety.ScannedRoom` | tests/farm/quota_model.py:23-25 | `need` scanned slots free at least `exmax` positions above the probed tail |
| `QuotaProtocol.NeedCovers` | tests/farm/quota_model.py:22-23 | `need` is `exmax` in whole segments, rounded up: it covers `exmax` positions and one less does not; it is below `k` exactly when the quotas are within `(k-1)*cap` |
| `QuotaAccounts.Conserved` | tests/farm/quota_model.py:43-76 | Every step changes the tail by what it reserves, the tail and all balances together by what it hands out, and no other producer: a grant hands out quota minus balance, automatic refill what refills, and a probe, a scan, a blocked scan or the consumer nothing |
| `QuotaAccounts.StrictAccounts` | tests/farm/quota_model.py:27-84 | Along every strict run tail plus balances are what the grants handed out, the tail is what was reserved, and the held range has moved once for each pin and drop |
| `QuotaAccounts.OwnAccount` | tests/farm/quota_model.py:61-76 | Between two grants a producer's balance falls by what it reserves and by nothing else |
| `QuotaAccounts.ConsumerIsFree` | tests/farm/quota_model.py:44-47 | The consumer can come to hold any range between its own and the tail's epoch, one epoch a step |
| `QuotaAccounts.IdleIsFree` | tests/farm/quota_model.py:59-70 | An idle producer, and no other, may probe or reserve any part of its balance in every reachable strict state |
| `QuotaAccounts.ScanIsDetermined` | tests/farm/quota_model.py:71-76 | A scanning producer has exactly one move |
| `QuotaAccounts.ScanHistory` | tests/farm/quota_model.py:59-76 | A scan under way began with a probe when the tail was in its anchor's epoch, and has since found the slots of the following epochs free one by one and done nothing else |
| `QuotaAccounts.GrantIsScanned` | tests/farm/quota_model.py:59-76 | A grant comes only after a probe and after each of the `need` slots behind it was found free, in order |
| `QuotaAccounts.IdleForgets` | tests/farm/quota_model.py:24-26 | In every reachable state an idle producer keeps no anchor and no scan is past `need` slots |
| `QuotaLiveness.NoStarvation` | tests/farm/quota_model.py:44-76 | From every reachable strict state each producer has a continuation ending in its own grant of its whole quota, made of its own and the consumer's steps alone, with the tail and the other producers unmoved |
| `QuotaLiveness.AdmissionIsExact` | tests/farm/quota_model.py:22 | The asserted bound is exact: some grant is reachable if and only if the quotas sum to at most `(k-1)*cap`, with or without automatic refill |
| `QuotaLiveness.AutomaticRefillUnsafe` | tests/farm/quota_model.py:61-70 | For every admitted configuration automatic refill reaches, within the first lap, a reservation of one entering a pinned epoch |
| `QuotaLiveness.CatchUp` | tests/farm/quota_model.py:44-47 | The consumer's own steps can always reach the state in which it holds only the tail's epoch |
| `QuotaLiveness.FreshScan` | tests/farm/quota_model.py:59-76 | With the consumer caught up, an idle producer's probe and scan run through to a grant |
| `QuotaSymmetry.SortFacts` | tests/farm/quota_model.py:55 | Sorting yields an ordered permutation |
| `QuotaSymmetry.CanonRoles` | tests/farm/quota_model.py:49-58 | Sorting each equal-quota class only permutes producers of equal quota |
| `QuotaSymmetry.CanonUnique` | tests/farm/quota_model.py:53-57 | The canonical form of a vector is the only arrangement of its producers within equal quotas in which every class is sorted |
| `QuotaSymmetry.CanonExact` | tests/farm/quota_model.py:53-57 | Two vectors have one canonical form exactly when they are permutations of each other within equal quotas |
| `QuotaSymmetry.CanonOrdered` | tests/farm/quota_model.py:53-57 | Producers of equal quota stand in the order of their tuples: balance, then anchor, then step |
| `QuotaSymmetry.Simulates` | tests/farm/quota_model.py:43-76 | A step from one state is matched, action for action, from any state equal up to equal-quota producers, with equivalent results and the same violations |
| `QuotaSymmetry.SymmetryExact` | tests/farm/quota_model.py:49-58 | Exploring sorted states reaches a violating reservation within a bound if and only if the unsorted system does |
| `QuotaSymmetry.OrbitsCovered` | tests/farm/quota_model.py:49-58 | Every reachable state has an equivalent state in the reduced search |
| `QuotaSymmetry.OrbitsGenuine` | tests/farm/quota_model.py:49-58 | Every state of the reduced search is equivalent to a reachable one |
| `QuotaSymmetry.OneStatePerOrbit` | tests/farm/quota_model.py:49-58 | The reduced search never holds two different states of one orbit |
| `QuotaSymmetry.ReducedKeepsOrder` | tests/farm/quota_model.py:49-58 | Every class stays sorted along reduced runs |
| `QuotaExplorer.Explore` | tests/farm/quota_model.py:20-84 | For every lap bound and state limit the loop ends; a pass stayed below the limit and means no reachable state within the bound enables a violation; a counterexample carries a genuine run, none is shorter, and it arises only under automatic refill; giving up means that many states exist. The states of every answer are the distinct reachable states recorded; the edges are all those of the expanded states, and at the limit also part of one more state's |
| `QuotaExplorer.ShortestCounterexample` | tests/farm/quota_model.py:27-41 | No run of the protocol, sorted or not, comes to a violation within the bound in fewer steps than the reported counterexample |
| `QuotaExplorer.StrictAnswer` | tests/farm/quota_model.py:77-84 | In the strict mode the number of reachable orbits within the bound determines the answer: the search passes if and only if there is one or there are fewer than the limit |
| `QuotaExplorer.Visit` | tests/farm/quota_model.py:39-83 | One round either ends with a true answer or leaves the dequeued state fully expanded and every recorded state linked back to the start |
| `QuotaExplorer.Expand` | tests/farm/quota_model.py:43-76 | The successors are those of exactly the enabled actions within the bound, in order, and none of them is a violation; otherwise the first violating reservation, by producer and then by size, is reported with the first pinned epoch it enters |
| `QuotaExplorer.MovesExact` | tests/farm/quota_model.py:43-76 | The enumerated actions are exactly the enabled ones within the bound |
| `QuotaExplorer.MovesOrdered` | tests/farm/quota_model.py:43-76 | Each of them is generated once: the consumer's, then producer by producer a probe and the reservations by size |
| `QuotaExplorer.FirstPinned` | tests/farm/quota_model.py:65-66 | The scan of the epochs finds the smallest pinned epoch that a reservation enters, or there is none |
| `QuotaExplorer.Canonical` | tests/farm/quota_model.py:50-57 | The nested loops over classes and positions compute the canonical form |
| `QuotaExplorer.Changed` | tests/farm/quota_model.py:49-58 | The successor state is the updated one in canonical form |
| `QuotaExplorer.Trace` | tests/farm/quota_model.py:32-37 | Following predecessors backwards and reversing yields a run from the start to the reported state |
| `QuotaExplorer.Absorb` | tests/farm/quota_model.py:77-83 | The successors not seen before are recorded once, listed in their order and linked by the first action that leads there, until the limit |
| `QuotaExplorer.Enqueue` | tests/farm/quota_model.py:77-83 | They are put at the end of the queue in that order |
| `QuotaExplorer.SearchComplete` | tests/farm/quota_model.py:39-84 | When the queue is empty the recorded states are all reachable ones within the bound, and no violation is reachable |
| `QuotaExplorer.LayersKept` | tests/farm/quota_model.py:39-83 | Expanding the head keeps the queue in order of distance from the start, never more than one layer deep behind its head |
| `QuotaExplorer.DiscoveredGenuine` | tests/farm/quota_model.py:78-80 | Every recorded state is reached by a reduced run |
| `QuotaExplorer.NegativeControlFound` | tests/farm/quota_model.py:100-104 | With automatic refill and at least one lap a violation is within the bound, for every admitted configuration, so a pass is impossible |
| `Relations.Closure` | tests/farm/rc11_spanned_attach.py:132-138 | The loop ends and returns exactly the pairs joined by a path of `sb ∪ sw` edges |
| `Relations.ClosureLeast` | tests/farm/rc11_spanned_attach.py:132-138 | That relation is transitive, contains the base, and is inside every transitive relation containing it |
| `Relations.CycleSearch.Dfs` | tests/farm/rc11_spanned_attach.py:169-175 | From an uncoloured node the search answers true only with a cycle at hand, and otherwise leaves a colouring in which finished nodes can be ranked |
| `Relations.CycleSearch.HasCycle` | tests/farm/rc11_spanned_attach.py:164-176 | With one colour map shared across roots, the answer is true if and only if the graph has a cycle |
| `Rc11Coherence.EcoIsKeyOrder` | tests/farm/rc11_spanned_attach.py:105-110 | Under atomicity extended coherence is exactly the order of a numeric key over the events of a location |
| `Rc11Coherence.ReleaseChain` | tests/farm/rc11_spanned_attach.py:118-131 | From a release head along consecutive read-modify-writes there is a chain of reads-from edges |
| `Rc11Coherence.SwInsideRf` | tests/farm/rc11_spanned_attach.py:116-131 | Every synchronises-with edge is a path of reads-from edges |
| `Rc11Releases.SwIsUpdateChain` | tests/farm/rc11_spanned_attach.py:116-131 | The backward walk is the release sequence: an event synchronises with another exactly when the one is a release, the other an acquire, and a chain of updates, each reading from the one before, leads from one to the other |
| `Rc11Coherence.HbInsideSbRf` | tests/farm/rc11_spanned_attach.py:116-138 | Happens-before is inside the transitive closure of `sb ∪ rf` |
| `Rc11Coherence.ShapesAtMeaning` | tests/farm/rc11_spanned_attach.py:139-163 | At each pair of events the four shapes together say that happens-before does not run against the key order |
| `Rc11Coherence.ShapesAreCoherence` | tests/farm/rc11_spanned_attach.py:139-163 | For every candidate with atomic updates and acyclic `sb ∪ rf`, over any finite set of events, the four shapes hold if and only if `hb;eco?` is irreflexive; the source claims this for its one program |
| `Rc11Coherence.NoThinAirNoFutureRead` | tests/farm/rc11_spanned_attach.py:111-115 | Acyclicity of `sb ∪ rf` implies the test for reads of own or later writes |
| `Rc11Coherence.ScImpliesConsistent` | tests/farm/rc11_spanned_attach.py:105-203 | Atomicity and acyclic `po ∪ rf ∪ mo ∪ fr` imply every axiom the program tests |
| `Rc11Interleavings.ScIsInterleaving` | tests/farm/rc11_spanned_attach.py:183-203 | The graph `po ∪ rf ∪ mo ∪ fr` is acyclic if and only if some order of all events keeps each thread's order and the modification orders and lets every read see the latest write |
| `Rc11Interleavings.ScPassesAll` | tests/farm/rc11_spanned_attach.py:105-203 | Such an execution passes every axiom, atomicity included |
| `Rc11Checker.UpdatesAtomic` | tests/farm/rc11_spanned_attach.py:105-110 | The loop decides atomicity of every read-modify-write |
| `Rc11Checker.ReadsPast` | tests/farm/rc11_spanned_attach.py:111-115 | The loop decides whether any read takes its own or a later write |
| `Rc11Checker.ReleaseHeads` | tests/farm/rc11_spanned_attach.py:121-131 | The backward walk over read-modify-writes collects exactly the heads of release sequences that reach the write read |
| `Rc11Checker.SwEdges` | tests/farm/rc11_spanned_attach.py:116-131 | The collected edges are exactly the synchronises-with relation |
| `Rc11Checker.ShapesHold` | tests/farm/rc11_spanned_attach.py:139-163 | The nested loops decide the four coherence shapes |
| `Rc11Checker.AcyclicGraph` | tests/farm/rc11_spanned_attach.py:164-176 | The search over all roots decides acyclicity |
| `Rc11Checker.Check` | tests/farm/rc11_spanned_attach.py:105-176 | A candidate survives every filter if and only if it is consistent, for any finite set of events |
| `Rc11Checker.CheckSc` | tests/farm/rc11_spanned_attach.py:183-203 | The last graph is acyclic if and only if the execution is an interleaving of its threads, and then every other test passes as well |
| `SpannedAttach.ProgramIsProgram` | tests/farm/rc11_spanned_attach.py:33-51 | For every span length the generated event list is the one that gives each role its event |
| `SpannedAttach.LitmusProgram` | tests/farm/rc11_spanned_attach.py:33-51 | For span three, with and without the successor acquire and the released count, it is the source's list, event by event |
| `SpannedAttach.LitmusValues` | tests/farm/rc11_spanned_attach.py:177-214 | For span three, attaching, validating and being initialised mean the values that the source tests, read by read |
| `SpannedAttach.AttachWithSuccessorAcquire` | tests/farm/rc11_spanned_attach.py:33-51 | For every span length, in every consistent execution in which S attached and acquired the successor, all interior reads are initialised |
| `SpannedAttach.AttachWithReleasedCount` | tests/farm/rc11_spanned_attach.py:37-51 | The same without that acquire when the discharge count is added with release and confirmed with acquire |
| `SpannedWitness.AttachPossible` | tests/farm/rc11_spanned_attach.py:177-214 | For every variant and span length, the repaired ones included, some sequentially consistent execution attaches, passes validation and reads only initialised interiors |
| `SpannedAttach.AttachChain` | tests/farm/rc11_spanned_attach.py:177-182 | The scenario filter forces the reads-from chain P to F to D to S |
| `SpannedAttach.ReadsSoleWriter` | tests/farm/rc11_spanned_attach.py:145-163 | A read that a location's only writer happens before reads that writer |
| `SpannedAttach.StaleNotSc` | tests/farm/rc11_spanned_attach.py:183-214 | For every variant and span, an execution that attaches and shows an uninitialised interior is not sequentially consistent |
| `SpannedAttach.RejectNotSc` | tests/farm/rc11_spanned_attach.py:206-210 | An execution refused at validation is not sequentially consistent either |
| `SpannedStale.InteriorGap` | tests/farm/rc11_spanned_attach.py:177-214 | For every span of at least two, without the acquire there is a consistent attached execution whose interior reads are all uninitialised, and it is not sequentially consistent |
| `SpannedStale.AttachExact` | tests/farm/rc11_spanned_attach.py:33-51 | Every consistent execution that attaches, and passes validation where there is one, reads only initialised interiors if and only if the span has length one, or there is the successor acquire, or the count is released and acquired |
| `SpannedStale.StaleConsistent` | tests/farm/rc11_spanned_attach.py:105-176 | The witness passes every axiom |
| `ForkJoin.StepInv` | forkjoin/README.md:35-41 | Every step by any participant keeps each counter equal to the number of unfinished children and starts a join only at zero |
| `ForkJoinSchedules.StepMeaning` | include/antfarm_forkjoin.h:12-26 | No step changes the value that any node of the tree will have |
| `ForkJoinSchedules.StepLeft` | include/antfarm_forkjoin.h:17-26 | Every step lowers the work left by exactly its own weight, whatever weights runs, joins and finishes are given |
| `ForkJoinSchedules.Progress` | forkjoin/README.md:36-41 | As long as the root has no value some participant can take a step |
| `ForkJoinSchedules.EveryScheduleAgrees` | include/antfarm_forkjoin.h:12-26 | Every finished schedule of any program leaves the depth-first value at the root and takes the same number of runs, of joins and of finishes |
| `ForkJoinSchedules.EveryScheduleSafe` | include/antfarm_forkjoin.h:12-26 | Along every schedule the invariant holds and the steps taken plus the work left are constant, so no schedule is longer than the program's work |
| `ForkJoinSchedules.EveryScheduleCompletes` | include/antfarm_forkjoin.h:12-26 | Every schedule can be carried to the end |
| `ForkJoinSchedules.JoinAfterChildren` | include/antfarm_forkjoin.h:17-18 | Wherever a join is about to run, all its children have finished |
| `ForkJoinSchedules.OneJoinPerFork` | include/antfarm_forkjoin.h:17-20 | At every frame and along every schedule each fork has exactly one join: forks taken there equal joins taken there, plus one while a fork is open |
| `ForkJoinSchedules.JoinsMatchForks` | include/antfarm_forkjoin.h:17-20 | Along every schedule the forks taken in the whole tree are the joins taken plus the forks still open, and equal them once the root is done |
| `ForkJoinLocality.StepsExactly` | include/antfarm_forkjoin.h:12-26 | A participant can take a step at a node exactly when a callback is due there or a child has not yet told its parent, whatever the other nodes do |
| `ForkJoinLocality.StepsCommute` | include/antfarm_forkjoin.h:12-26 | Steps at different nodes commute: neither takes the other away, and either order leads to the same tree |
| `ForkJoinRanges.RangeWellFounded` | include/antfarm_forkjoin.h:92 | The split rule yields a finite tree for every positive grain |
| `ForkJoinRanges.EvalIsReference` | tests/cabi/forkjoin.c:37-40 | Evaluating the split tree gives the reference fold |
| `ForkJoinRanges.ReductionDeterministic` | tests/cabi/forkjoin.c:45-47 | Every schedule of the reduction, for any leaf and any join, associative or not, ends with the reference value |
| `ForkJoinRanges.ReferenceHalves` | tests/cabi/forkjoin.c:37-40 | For any leaf and join the reference is the tree that splits exactly what is longer than the grain, into a left half rounded down and the rest |
| `ForkJoinRanges.ReductionHalves` | include/antfarm_forkjoin.h:92-96 | Every schedule joins the leaves in the shape of that tree |
| `ForkJoinRanges.HalvedTree` | include/antfarm_forkjoin.h:92 | There is such a tree for each size and positive grain |
| `ForkJoinRanges.HalvedUnique` | include/antfarm_forkjoin.h:92 | And only one |
| `ForkJoinRanges.CallRunsTree` | include/antfarm_forkjoin.h:92-101 | For any leaf and join a call is refused for a zero grain or reversed range, gives the seed for an empty range, and otherwise what its tree computes under any schedule |
| `ForkJoinRanges.TreeIsSerialFold` | include/antfarm_forkjoin.h:100-101 | With an associative join and an identity seed the midpoint tree equals the serial left fold, for every grain |
| `ForkJoinRanges.CallIsSerialFold` | include/antfarm_forkjoin.h:92-101 | The same for the whole call: invalid exactly for a zero grain or reversed range, the seed for an empty range |
| `ForkJoinRanges.AssociativityExact` | include/antfarm_forkjoin.h:100-101 | Given an identity seed, every reduction, whatever its terms, range and grain, equals the serial fold if and only if the operation is associative |
| `ForkJoinRanges.SeedExact` | include/antfarm_forkjoin.h:100-101 | Given an associative operation, every reduction equals the serial fold if and only if the seed vanishes between two terms, which an identity seed does |
| `ForkJoinRanges.AssociativityNeeded` | include/antfarm_forkjoin.h:100-101 | A subtraction with 0 as a two-sided identity: over the terms 1, 2, 3 with grain 1 the tree gives 2 and the serial fold -4 |
| `ForkJoinRanges.LoopVisitsOnce` | tests/cabi/forkjoin.c:41-44 | The leaves of a range loop, in order, list every index of the range once |
| `ForkJoinRanges.LoopSchedules` | tests/cabi/forkjoin.c:41-44 | Every finished schedule of a range loop has listed every index of the range once, in order |
| `ForkJoinRanges.LeavesTile` | include/antfarm_forkjoin.h:92-93 | The leaves are consecutive, nonempty, no longer than the grain and cover the range |
| `ForkJoinRanges.ReduceLeaf` | tests/cabi/forkjoin.c:29-33 | The loop computes the wrapping fold of its range |
| `ForkJoinRanges.TestReference` | tests/cabi/forkjoin.c:37-40 | The recursive reference is the midpoint fold of that leaf and join |
| `ForkJoinRanges.TestWords` | tests/cabi/forkjoin.c:29-36 | Leaf and join compute on words modulo 2^64 with the test's own factors |
| `ForkJoinRanges.FibDeterministic` | tests/cabi/forkjoin.c:14-26 | Every finished schedule of the forked Fibonacci tree holds the Fibonacci number modulo 2^64 |
| `ForkJoinRanges.FibOfTwelve` | tests/cabi/forkjoin.c:56 | Under every schedule `fib(12)` is 144 |
| `ForkJoinRanges.PhasesDeterministic` | tests/cabi/forkjoin.c:67-74 | A join that forks again runs exactly five times under every schedule |
| `Ownership.Advance` | include/antfarm.hpp:73-168 | Every atomic step of every call moves that call alone to a following phase, and a failing return writes nothing |
| `OwnershipInvariant.InvReady` | include/antfarm.hpp:23-40 | In an invariant state the next step of every call is well defined: the objects, slots, counters and handles it works on exist |
| `OwnershipCalls.AdvanceKeeps` | include/antfarm.hpp:23-168 | Every atomic step of a factory, move, assignment, reset or destructor keeps the ownership invariant |
| `OwnershipCalls.BeginKeeps` | include/antfarm.hpp:99-123 | Starting any call that the language allows keeps the invariant |
| `OwnershipCounts.CopyKeeps` | include/antfarm.hpp:28-30 | Copying through `fetch_add` while other threads copy and drop the same control block keeps the invariant |
| `OwnershipCounts.SwapKeeps` | include/antfarm.hpp:32 | The copy-and-swap assignment keeps the invariant |
| `OwnershipCounts.LastDropKeeps` | include/antfarm.hpp:33-37 | The `fetch_sub` that returns one makes that thread alone responsible for the Farm |
| `OwnershipHandles.ReturnKeeps` | include/antfarm_private.hpp:16 | Returning a token, view or park before the `farm_ref` moves or drops keeps the invariant |
| `OwnershipReferences.RefusedKeeps` | include/antfarm.hpp:86 | A failed control allocation destroys the fresh Farm once and keeps the invariant |
| `OwnershipRuns.ReferencesExact` | include/antfarm.hpp:17-40 | In every reachable state each counter equals the number of live `farm_ref`s on its control block, and every such block and its Farm exist |
| `OwnershipRuns.NothingDangles` | include/antfarm.hpp:23-40 | In no interleaving does a call dereference a control block or a handle that was freed, `get()`, the final owner's read and its delete included, or pass a destroyed Farm to C; a reset returns its handle to the Farm its wrapper holds |
| `OwnershipRuns.HandleRetainsFarm` | include/antfarm.hpp:105-112 | A token, park or subscribed view always has a live `farm_ref` on its Farm, also in the middle of calls |
| `OwnershipRuns.DestroysLast` | include/antfarm.hpp:33-37 | The step that runs `af_destroy` finds the Farm open, no reference on it and no handle of it |
| `OwnershipRuns.DestroyedOnce` | include/antfarm.hpp:33-37 | Each Farm is destroyed at most once, and between calls exactly once when no wrapper refers to it and not at all otherwise |
| `OwnershipRuns.NoLeak` | include/antfarm.hpp:73-168 | Once every call has returned and every wrapper is gone, no handle or control block is left and every Farm was destroyed exactly once |
| `OwnershipRuns.FailureLeavesOutput` | include/antfarm.hpp:67-68 | A factory that fails, at whichever step and whatever other threads did meanwhile, leaves its output as it found it |
| `OwnershipRuns.MoveDelivers` | include/antfarm.hpp:119-123 | A completed move, whether it completes at once or after steps interleaved with other threads, gives the target what the source held at the start and leaves the source empty; an object of any kind moved onto itself keeps what it held |
| `OwnershipDelivers.FarmDelivers` | include/antfarm.hpp:80-89 | For every answer and every interleaving `farm::create` returns busy exactly for an occupied output, else the failing status, else a failed allocation after destroying the fresh Farm once, and otherwise succeeds with the output owning the fresh Farm it was given |
| `OwnershipDelivers.HolderDelivers` | include/antfarm.hpp:105-112 | For every answer and every interleaving a holder's factory returns busy exactly for an occupied output, invalid for a consumer of an empty Farm, else the status of the call that failed, and otherwise succeeds with the output holding that Farm and the handle it was given, of its kind and bound to it |
| `OwnershipDelivers.DestructDelivers` | include/antfarm.hpp:116 | A completed destructor has removed its wrapper and its reference in one of its steps |
| `OwnershipDelivers.DefaultDelivers` | include/antfarm.hpp:79 | A default-constructed wrapper is empty |
| `OwnershipDelivers.HandlesReturned` | include/antfarm.hpp:141-143 | A view is given back only once it is unsubscribed, a token or park while it is bound, and then its Farm is open |
| `OwnershipDelivers.OthersLeave` | include/antfarm.hpp:15-40 | No step of another thread touches the objects a call uses, their references, or the handle it carries |
| `OwnershipRuns.EveryCallEnds` | include/antfarm_private.hpp:13-42 | Whatever the C functions answer in each state, every call in progress finishes by its own steps alone, at most eight |
| `OwnershipRuns.CallsAreShort` | include/antfarm.hpp:73-168 | In any interleaving a call takes at most eight steps of its own, each bringing it closer to its end |
| `OwnershipRuns.CanStep` | include/antfarm.hpp:73-168 | A call in progress is never stuck: it can step with any failing status and with any fresh id |
| `ApiComments.StripComments` | scripts/check-api-docs.py:99-134 | The find-and-jump loop returns the output and leaves the stack of the character-by-character pushdown automaton, for every line and every incoming stack |
| `ApiComments.PassComment` | scripts/check-api-docs.py:109-122 | One jump inside a comment is what the automaton reaches reading the skipped characters |
| `ApiComments.PassCode` | scripts/check-api-docs.py:123-133 | One jump outside comments is what the automaton reaches reading the skipped characters, and its text is emitted |
| `ApiComments.Jump` | scripts/check-api-docs.py:109-133 | Reading up to and over the first relevant marker changes the stack as the jump does and emits the text before it |
| `ApiComments.ReachableShape` | scripts/check-api-docs.py:99-104 | Over any lines of a file the stack is empty, one star comment, or nested plus comments only |
| `ApiComments.StrippedIsCode` | scripts/check-api-docs.py:99-134 | What is left contains no comment marker, not even one joined across a removed comment, so stripping it again changes nothing |
| `CommentGrammar.StripsToCode` | scripts/check-api-docs.py:99-134 | A line put together from code, star comments, plus comments nested to any depth, and any ending is stripped to its code, and leaves open what its last comment leaves open |
| `CommentGrammar.StripsContinued` | scripts/check-api-docs.py:99-122 | A line that goes on in an open comment is stripped like what follows its closer, or dropped whole |
| `CommentGrammar.FeedNested` | scripts/check-api-docs.py:109-122 | In a plus comment each opener goes one level in and each closer one level out |
| `CpuList.FormatCpuList` | tools/perf/run_performance_md.py:708-722 | The loop prints the ranges of the sorted distinct numbers |
| `CpuList.PartsExact` | tools/perf/run_performance_md.py:717-722 | Each printed part reads as one range, and holds a dash exactly when that is more than one number |
| `CpuList.DecimalPlaces` | tools/perf/run_performance_md.py:717 | Numbers are printed digit by digit without a leading zero |
| `CpuList.TestedLists` | tools/perf/test_run_performance_md.py:997-999 | The test's lists print as it expects |
| `CpuList.OnlineCpus` | tools/perf/offccd_sweep.py:234-240 | The loop reads back every nonempty part, with the blanks, sign and underscores that `int` takes, or fails where a bound is no number |
| `CpuList.ReadsPartByPart` | tools/perf/offccd_sweep.py:237-239 | A list is its parts read in order, an empty part adds nothing, and one failing part fails the whole |
| `CpuList.ReadsLikeInt` | tools/perf/offccd_sweep.py:239 | A sign, blanks around and underscores between digits are taken |
| `CpuList.OpenRangeIsOne` | tools/perf/offccd_sweep.py:238-239 | A range without its second bound is its first number |
| `CpuList.NothingNegative` | tools/perf/offccd_sweep.py:237-239 | No part reads as a negative CPU, although `int` takes signs: a minus is always the dash of a range |
| `CpuList.RangesFacts` | tools/perf/run_performance_md.py:710-721 | The printed ranges cover exactly the set and no two of them could be merged |
| `CpuList.RoundTrip` | tools/perf/offccd_sweep.py:234-240 | Parsing what was printed gives the sorted elements of the set, the empty set included |
| `CpuList.SameTextSameSet` | tools/perf/run_performance_md.py:708-722 | Two lists print alike exactly when they hold the same numbers |
| `CpuList.DecimalRoundTrip` | tools/perf/offccd_sweep.py:239 | `int` reads a printed number back |
| `CodeSpans.DelimiterRuns` | scripts/check-doc-links.py:95-103 | The loops collect the unescaped backtick runs in order |
| `CodeSpans.DelimitersExact` | scripts/check-doc-links.py:95-103 | Those are exactly the maximal runs whose preceding block of backslashes, if any, has even length |
| `CodeSpans.BackslashesExact` | scripts/check-doc-links.py:96-101 | The count is the length of the block of backslashes that ends there |
| `CodeSpans.SpansExact` | scripts/check-doc-links.py:104-119 | A run opens a span exactly when it lies in no other span and a later run is as long, and the span ends with the nearest such run |
| `CodeSpans.StripInlineCode` | scripts/check-doc-links.py:104-120 | The loop over the character list returns the line with exactly the paired spans blanked |
| `CodeSpans.FindCloser` | scripts/check-doc-links.py:107-113 | The search finds the nearest later run of equal length, or none |
| `CodeSpans.PairNext` | scripts/check-doc-links.py:106-119 | One round blanks the span of the next run that closes, or passes a run that does not; the spans blanked so far and those of the remaining runs stay the paired spans of the line |
| `CodeSpans.SpansFacts` | scripts/check-doc-links.py:105-119 | Spans run from one delimiter to a later one and never meet |
| `CodeSpans.TextRunsDiffer` | scripts/check-doc-links.py:114-116 | Two runs left as text differ in length |
| `CodeSpans.MaskedTwice` | scripts/check-doc-links.py:89-120 | Masking keeps the length, and masking again changes nothing |

## Left out

- The D Farm, actors, deques, thread pool and Fibers are not part of this model; neither are the C headers beyond the fork-join rule and the ownership calls.
- `quota_model.py`: argument parsing, JSON output and the text of actions (an action datatype stands for it); laps are taken as nonnegative.
- QuotaExplorer: the search is split into methods for the queue loop, one dequeued state, its producers, its successors and one of them.
- `rc11_spanned_attach.py`: the enumeration of all candidates and the printed tallies, which are finite facts of one span length.
- `rc11_spanned_attach.py:84-104`: the sweeps that compute values are replaced by the equations they solve; an execution is given with a solution of them.
- SpannedAttach.AttachWithSuccessorAcquire: the variant with a later-lap writer of the last epoch word is not covered, because there that word has two writers and later reads may see the later lap.
- ForkJoin: nodes form a tree value, so caller-owned frames, their reuse or release, the participants' deques and the fatal misuse cases are not represented; a step is taken at a path by whichever participant gets there.
- ForkJoin: a program comes with a rank witnessing that its tree of callbacks is finite; an endless program has no termination to prove.
- ForkJoinRanges: value sizes, alignment, aliasing of seed and output, and the invalid size argument are left out; range callbacks are pure functions.
- Ownership: the adapter's classes are a state machine on values rather than Dafny classes, because the claims are about interleavings inside their methods; what is lost is the update in place of C++ objects, which maps keyed by identity stand for.
- Ownership: releasing a handle and nulling its pointer is one step, since no other thread can look between; memory-order labels, exceptions, `make`, `write`, `poll` and the park operations other than create and destroy are left out.
- Ownership: the output of a factory stays with its call until that returns, as the language asks of the caller.
- Ownership: a C call may fail with any status at any time, and `af_farm` construction never returns a Farm id twice.
- CpuList: reading one part is a method of its own; `int` is modelled for ASCII text, so other scripts' digits and blanks are refused; reading the file is left out, and so is `cpu_order`.
- CodeSpans: the pairing loop and one round of it are methods of their own; nothing is claimed about section 6.1 of CommonMark 0.31.2; a run after an odd number of backslashes never delimits here, even where the standard would take the backslash literally.
- ApiComments: the loop's two branches, inside and outside comments, and the choice of the first marker are methods of their own; string literals containing markers are treated as the source treats them, without special care.
- Benchmark drivers, subprocess, sysfs and git access, Markdown rendering and log parsing would add only plumbing.
