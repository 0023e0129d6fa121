# The decision core of ReClash in Dafny

This project models the parts of ReClash's core that decide where traffic goes and
the small protocols around them that hold state, and proves what they promise. Each
module follows one component; a loop or an object that updates its state is a method
or a class here, proved against a specification function, and what the component
promises is proved of that function over every input, run or interleaving.

- **Conditions** (`Text`, `Lexer`, `Parser`, `Cond`, `Locality`, `Retract`, `Scopes`, `Pool`,
  `Layers`, `Chain`, `Unbalanced`, `Redefined`, `Builder`, `RoundTrip`). A condition's text is
  lexed, parsed by recursive descent and evaluated to yes, no or unknown. Profiles are
  layered by joining condition *text*, so that pools only ever narrow rests on the lexer
  being compositional and the parser local. The flat-form printer and the parser are
  inverse on well formed forms.
- **Deciding** (`Evidence`, `Deciding`, `Ranking`, `Tiers`, `Settles`, `Overtake`, `Guards`,
  `Flap`). Facts about nodes are ranked lexicographically with a credit for the incumbent,
  and a decision is made. Deciding settles in one move, unknown checks can only lift the
  rows the planner is told to check, and switches for being faster are bounded in every hour.
- **Probing** (`Confirm`, `Tokens`, `Identities`). Checks in flight and the paired
  confirmation that may condemn a node, what checks may be bought, and how nodes are
  recognised across refreshes.
- **Lock-free coalescing** (`Drain`, `Progress`, `Coalesced`, `Batcher`). Atomic steps over any number
  of goroutines, or turns of a select loop, in every order: nothing is lost, nothing
  overlaps, nothing starves, and what is under way ends.
- **Merging** (`Merge`, `MergeLaws`, `MergeOrder`). The three-way merge of a user's fork
  with its source, over mappings and lists of named items.
- **Sharing** (`Bundles`, `BundleLaws`, `Sharing`, `Imported`). A document
  bundled with every profile it needs and unpacked under free names: the names in it
  still lead to the same profiles, and these still resolve to the same layers.
- **Around the core** (`Ipc`, `Budget`, `Meter`, `Routes`, `Candidate`). Frames over a pipe
  that stalls or fails, the speed test's bytes, routes injected against a parser that may
  reject them, and the search for proxies allowed under GLOBAL.

What is outside is a parameter: the rune tables, case folding and the regular expression
engine (`Text.Library`, with what the Unicode tables guarantee of ASCII spelled out in
`Valid`), the clock, what a pipe does with each write (a finite schedule; afterwards it is
dead), what a select finds ready, the rounding of a share, the config parser and what it
blames, whether a selection succeeds and whether a check is paid for. Digests are
injective: a fingerprint stands for itself, a key is built of its parts. Times are
integers and, where they are compared with a stamp, zero means never; a span measured
from never is taken to be long, as the saturating subtraction of the Go library makes it.

The results are `Pool.LayersOnlyNarrow`, `Retract.ReadAsPairIff`, `Chain.ExtendingOnlyNarrows`,
`RoundTrip.FormRoundTrip`, `Settles.SettlesInOneMove`, `Overtake.OnlyPendingOvertakes`,
`Guards.IncumbentIsLeftForCause`, `Flap.NoHourHoldsMore`, `Drain.NoNoteLost`,
`Progress.EverythingIsDelivered`, `Coalesced.RequestsAreServed`,
`Batcher.NothingLostNothingStarved`, `MergeLaws.MergeIsSymmetric`,
`MergeOrder.NewItemLandsAfter`, `Confirm.ExactUnlessStray`, `Confirm.CondemnedWithCause`,
`Identities.KeysAreDistinct`, `Identities.ResolvingAgainIsTheSame`, `Ipc.WireStaysInSync`,
`Ipc.HostReadsWhatWasDelivered`, `Budget.BytesAreConserved`, `Meter.SpeedTestMeter.Samples`,
`Tokens.TheDayIsCapped`, `Routes.ParseRouted`, `Sharing.SharedIsTheSame`,
`Imported.NamesResolveTheSame` and `Candidate.CandidateMeansEveryWalkIsFine`. The other rows
of the table lead to them; some, such as `Coalesced.NobodyBlocks`, `Ipc.DroppedLeavesTheWire`,
`Confirm.LiveJobsStay`, `Merge.OnlyMineStays`, `Merge.EqualEditsAgree` and
`Evidence.DeathLasts`, only read one step off its definition.

Where the code and a plain reading of its promise part ways, both are stated.

- A layer that does not parse alone can widen a pool (`UnbalancedLayerWidens`). That each
  parses alone is enough for narrowing, and for an include to be read as one more part it
  is needed as well (`ReadAsPairIff`); it is not needed for the joined text to parse.
- A layer that redefines a tag can widen what the pools under it admit
  (`RedefinedTagWidens`). That no pool under it reads the tag is enough; a tag may also be
  redefined to mean the same. Without that condition the whole still admits exactly what
  every pool admits under the tags of the whole (`MergedAdmits`).
- A tier that reads which node is current need not settle (`NotCurrentSwingsForever`). That
  no condition reads it is enough, and can be checked; some that do read it settle too.
- A pattern survives printing if and only if it does not end in a backslash
  (`EscapeRoundTrip`, `EscapeLosesBackslash`).
- A group bound again while its pair is in flight may take a late answer for the new
  pair's (`BoundTooSoonCondemnsAnother`). Pairs are counted and judged as they should be
  exactly in the runs where no such stray answer comes back (`ExactUnlessStray`).

## Model

| member | source | states |
|---|---|---|
| `Text.AtoiItoa` | core/rcx/builder.go:166-167 | An integer a clause prints in decimal reads back as itself, over the whole 64-bit range |
| `Text.TrimSplits` | core/rcx/cond.go:341-343 | Trimming takes off a blank front and a blank back and nothing else |
| `Lexer.LexCond` | core/rcx/cond.go:379-453 | The index loop of the lexer yields exactly the tokens of the recursive definition, or fails exactly where it does |
| `Lexer.LexOne` | core/rcx/cond.go:383-450 | One turn of the loop takes the token, the blank or the error at that place |
| `Lexer.QuoteEnd` | core/rcx/cond.go:404-413 | A quoted value ends at the first same quote after it, and an unclosed one is an error |
| `Lexer.WordEnd` | core/rcx/cond.go:441-447 | A word is the longest run of word runes |
| `Lexer.LexPattern` | core/rcx/cond.go:414-440 | A slash pattern ends at the first slash that no backslash escapes; escaped slashes lose their backslash; trailing i folds case |
| `Lexer.PatternEnd` | core/rcx/cond.go:415-425 | The loop finds that closing slash and the pattern with its escapes resolved |
| `Lexer.LexLocal` | core/rcx/cond.go:379-453 | Lexing is compositional: a text that lexes alone gives the same tokens in front of anything a token cannot run into |
| `Lexer.LexTrim` | core/rcx/cond.go:341-349 | Blanks around a text change no token |
| `Parser.CondParser.Or` | core/rcx/cond.go:496-516 | The or-loop answers what the grammar says for the tokens ahead and leaves the rest of them ahead |
| `Parser.CondParser.And` | core/rcx/cond.go:518-535 | The same of the and-loop |
| `Parser.CondParser.Unary` | core/rcx/cond.go:537-554 | The same of not and parentheses, depth counted |
| `Parser.CondParser.Predicate` | core/rcx/cond.go:556-611 | The same of tags, checks, diagnostics, flags and comparisons, each in the scope that allows it |
| `Parser.CondParser.Call` | core/rcx/cond.go:613-622 | The same of a parenthesised name |
| `Parser.CondParser.Number` | core/rcx/cond.go:624-636 | The same of a latency comparison |
| `Parser.CondParser.Text` | core/rcx/cond.go:638-681 | The same of a text comparison, a pattern or a list |
| `Parser.CondParser.List` | core/rcx/cond.go:657-671 | The same of the values of a list |
| `Parser.Compile` | core/rcx/cond.go:341-362 | Trimming, the length limit, lexing, parsing and the check for leftovers together answer what ParseCond says |
| `Locality.OrLocal` | core/rcx/cond.go:496-516 | Parser locality: what an expression parses to is unchanged by a closing parenthesis or anything else behind it, at the same depth or any deeper one that does not exceed the limit |
| `Locality.UnaryLocal` | core/rcx/cond.go:537-554 | The same of one operand |
| `Locality.PredicateLocal` | core/rcx/cond.go:556-611 | The same of one predicate |
| `Cond.Eval` | core/rcx/cond.go:229-325 | Evaluation never yields the fourth value: a condition is yes, no or unknown |
| `Cond.CurrentIsIgnored` | core/rcx/cond.go:264-264 | A condition that does not read current has the same value whoever is current |
| `Cond.DecidedStays` | core/rcx/cond.go:229-276 | Kleene soundness: a decided condition keeps its value when unknown checks get their verdict |
| `Cond.ChecksAreIgnored` | core/rcx/cond.go:229-287 | A condition that reads no check is not changed by any verdict |
| `Pool.JoinedLexes` | core/rcx/policy.go:476-488 | The tokens of a joined text are those of the two parts, in parentheses, with the operator between |
| `Pool.JoinedMeans` | core/rcx/policy.go:476-488 | A joined text that parses is, node for node, the and or the or of its parts, and its value for every subject is their Kleene and or or |
| `Pool.JoinedParsesIff` | core/rcx/policy.go:476-488 | A joined text parses if and only if it is within the length limit and both parts parse one level deeper |
| `Pool.LayersMean` | core/rcx/policy.go:339-350 | Along a chain of layers the joined include has the Kleene and of the layers as its value, the exclude the Kleene or |
| `Pool.LayersOnlyNarrow` | core/rcx/policy.go:339-350 | In one scope and for given tags pools only ever narrow: when every layer parses alone and the whole does, the whole admits a subject exactly when every layer does |
| `Unbalanced.UnbalancedLayerWidens` | core/rcx/policy.go:476-488 | A layer whose text does not parse alone can widen: base udp and child dead) or (alive join to a pool that admits a node without UDP |
| `Retract.ReadAsPairIff` | core/rcx/policy.go:476-488 | An include layered over one that parses alone is read as the two and nothing else if and only if it parses alone, both parse one level deeper and the joined text is not too long |
| `Unbalanced.PairWithoutParts` | core/rcx/policy.go:476-488 | Of an exclude this cannot be told from the shape: udp or dead) and (alive is read as two parts of which the second is no condition |
| `Builder.WriteForm` | core/rcx/builder.go:179-195 | The printing loop writes exactly the specified text, or refuses exactly where it does |
| `Builder.ReadForm` | core/rcx/builder.go:125-142 | The reading loop gives exactly the specified form, and no form when a clause is not flat |
| `RoundTrip.EscapeRoundTrip` | core/rcx/builder.go:217-222 | A pattern that does not end in a backslash, printed with its slashes escaped, scans back as itself and no further |
| `RoundTrip.EscapeLosesBackslash` | core/rcx/builder.go:217-222 | A pattern that ends in a backslash does not: the closing slash is taken into it |
| `RoundTrip.FormPrints` | core/rcx/builder.go:179-195 | The printed text of a well formed form lexes to the tokens of its clauses, whatever quotes and escapes they need |
| `RoundTrip.FormParses` | core/rcx/cond.go:496-554 | Those tokens parse to the nodes of the clauses under the join |
| `RoundTrip.FormComesBack` | core/rcx/builder.go:125-177 | Those nodes read back as the same clauses in order |
| `RoundTrip.FormRoundTrip` | core/rcx/builder.go:125-252 | Printer then parser is the identity on well formed forms in scope, the join normalised for one clause |
| `Drain.Refreshed` | core/rcx/engine.go:424-451 | A name kept keeps its counter, a new one gets a counter nobody has, and the names are exactly those given |
| `Drain.StepKeepsInv` | core/rcx/engine.go:424-591 | Every step of a noter, a timer, a drainer, a refresh or a shutdown keeps the invariant of locks, counters, queue and schedule |
| `Drain.ResetKeeps` | core/rcx/engine.go:556-565 | Resetting before swapping keeps it: later notes can arm their own drain |
| `Drain.CasKeeps` | core/rcx/engine.go:493-508 | So does raising the priority by compare and swap, lost or won |
| `Drain.ArmKeeps` | core/rcx/engine.go:509-532 | So does arming: a due time is only ever brought forward, under a new revision |
| `Drain.NoNoteLost` | core/rcx/engine.go:424-591 | In every interleaving a nonzero counter of a kept node, or a queued test, has a drain pending, a noter yet to decide, or a drainer that has reset and not read it |
| `Drain.PendingIsScheduled` | core/rcx/engine.go:493-542 | A pending drain has a timer of the current revision or its callback, due within the delay its priority asks for, unless someone is heading for the lock to arm it |
| `Drain.QuietMeansDelivered` | core/rcx/engine.go:548-591 | Once nobody is at work and no timer is armed, everything noted on kept nodes has been handed over once, tests in order |
| `Drain.NothingMadeUp` | core/rcx/engine.go:556-591 | In every state what was handed over and what still counts add up to what was noted |
| `Drain.UndeliveredMovesOn` | core/rcx/engine.go:493-591 | No deadlock: while something is undelivered, a goroutine can take a step or an armed timer only waits for its time |
| `Progress.WorkFalls` | core/rcx/engine.go:424-591 | Every step but a new note, wake-up or topology makes a rank fall, however often a compare and swap is lost: the work under way ends under every schedule |
| `Progress.EverythingIsDelivered` | core/rcx/engine.go:424-591 | From every reachable state of an open engine the goroutines inside and the clock alone bring about a quiet one where every note on a kept node was handed over once and every test in order |
| `Coalesced.RunsNeverOverlap` | core/rcx_runtime.go:242-263 | In every interleaving of any number of requesters, with runs that return or panic, two runs never overlap |
| `Coalesced.RequestsAreServed` | core/rcx_runtime.go:242-263 | Pending implies the loop is running or a goroutine has yet to compare and swap or look again; a request whose mark is gone was followed by the start of a run |
| `Coalesced.QuietMeansServed` | core/rcx_runtime.go:242-263 | When everyone is outside, the latest request had a run start after it |
| `Coalesced.NobodyBlocks` | core/rcx_runtime.go:246-263 | Whoever is inside can always take the next step |
| `Batcher.MessageBatcher.Flush` | core/message.go:109-123 | A flush sends the open batch whole, disarms the deadline and opens an empty one; an empty batch is not sent |
| `Batcher.MessageBatcher.Take` | core/message.go:125-139 | A message joins the batch, arming the deadline if it is the first and flushing at 32; a closed queue leaves the select for good |
| `Batcher.MessageBatcher.Step` | core/message.go:142-184 | One turn of the loop: state first, bulk after a burst of eight, then priority, then whatever is ready |
| `Batcher.NothingLostNothingStarved` | core/message.go:94-186 | Batches sent and the open one are the messages received, in order; batches hold 1 to 32; the deadline is armed exactly while one is open; while the bulk queue is open at most 8 priority messages come between two moments it is served or seen empty |
| `Batcher.EverythingIsSentAtTheEnd` | core/message.go:142-186 | Once every queue is closed and the last flush done, everything received has been sent |
| `Merge.Fork.Set` | core/rcx/merge.go:200-222 | The key is replaced where it stands, removed, or appended |
| `Merge.Fork.Merge` | core/rcx/merge.go:77-103 | The loop over the keys edits the fork in place into the specified merge and reports its conflicts; the recursion ends |
| `Merge.Fork.MergeKey` | core/rcx/merge.go:85-101 | One key: left alone, taken from the source, merged deeper, merged by name, or in conflict |
| `Merge.MergeLists` | core/rcx/merge.go:136-179 | The two loops over a named list give the specified list and conflicts |
| `Merge.FindPlace` | core/rcx/merge.go:168-174 | The inner loop finds the place after the nearest earlier item that is kept |
| `Merge.KeyByKey` | core/rcx/merge.go:77-103 | With no key repeated the merged mapping holds at every key what that key's three values give, whatever was merged before |
| `Merge.ConflictsByKey` | core/rcx/merge.go:77-103 | And its conflicts are exactly those of its keys |
| `Merge.UntouchedFollowsSource` | core/rcx/merge.go:12-16 | A key the user never touched becomes the source's |
| `Merge.OnlyMineStays` | core/rcx/merge.go:12-16 | A key the source never touched stays the user's |
| `Merge.EqualEditsAgree` | core/rcx/merge.go:12-16 | Equal edits agree and stay |
| `MergeLaws.NameByName` | core/rcx/merge.go:134-179 | With no name repeated the merged list holds under every name what that name's three versions give |
| `MergeLaws.ConflictsByName` | core/rcx/merge.go:134-179 | And its conflicts are exactly those of its names |
| `MergeLaws.SameMeaningSameCanon` | core/rcx/merge.go:224-237 | Documents that decode to one meaning are equal up to the order of keys and named items |
| `MergeLaws.MergeIsSymmetric` | core/rcx/merge.go:77-179 | Swapping mine and theirs reports the same conflicts, and with none both merges are equal up to order |
| `MergeOrder.UserOrderStays` | core/rcx/merge.go:24-26 | The user's items keep the user's order, less those the source removed and the user never touched |
| `MergeOrder.NewItemLandsAfter` | core/rcx/merge.go:134-176 | A new item from the source lands right after the item it follows there, or the nearest before it that is in the list, and later insertions leave them together |
| `MergeOrder.NewItemLandsInFront` | core/rcx/merge.go:166-176 | With no earlier item of the source in the merged list it comes first of all, and stays there |
| `Evidence.LatencyIsMeasured` | core/rcx/evidence.go:174-188 | A latency exists exactly when a recent sample does; median and ninetieth percentile are recent samples, the median positive, the spread never negative |
| `Evidence.NodeRecord.NoteCheck` | core/rcx/evidence.go:80-98 | One outcome updates one check: its run counts equal outcomes in a row, a pass is remembered |
| `Evidence.NodeRecord.NoteSample` | core/rcx/evidence.go:215-221 | A sample is a success and is kept among the last eight |
| `Evidence.NodeRecord.MarkDead` | core/rcx/evidence.go:230-239 | Dying starts an episode, kept among the last sixteen, unless already dead |
| `Evidence.NodeRecord.NoteDialFail` | core/rcx/evidence.go:243-252 | Failed dials within the window are kept; three with no success since the first make a suspect |
| `Evidence.VerdictOfHistory` | core/rcx/evidence.go:63-98 | Read off the whole history: a failure counts only when the outcome before it failed too or the check never passed; an optional failure is neither; a pass is a pass; nothing lasts past the window |
| `Evidence.DeathLasts` | core/rcx/evidence.go:166-239 | A dead node stays dead through failures and until a success after its death; dying again is no new episode |
| `Deciding.FindTier` | core/rcx/decide.go:405-414 | The tier loop finds the first tier that holds and the first unknown one before it |
| `Deciding.MakeRow` | core/rcx/decide.go:356-424 | One turn of the member loop gives the specified row |
| `Deciding.RankMembers` | core/rcx/decide.go:353-450 | rank gives the specified rows, sorted |
| `Deciding.PickPending` | core/rcx/decide.go:291-313 | pendingNeeds gives the specified names |
| `Deciding.CountBeats` | core/rcx/decide.go:322-330 | The newest-first loop counts the run of samples that beat the bar, no further than needed |
| `Ranking.RowsCompare` | core/rcx/decide.go:427-444 | The comparison is total on rows of different names and never goes both ways |
| `Ranking.RowsChain` | core/rcx/decide.go:427-444 | And transitive, with the incumbent's credit in it |
| `Ranking.SortIsOrder` | core/rcx/decide.go:427-444 | The ranking is a permutation of the rows in which none stands behind one it comes before |
| `Ranking.BestLeads` | core/rcx/decide.go:160-166 | The best row is eligible and no eligible row comes before it |
| `Ranking.LookedUp` | core/rcx/decide.go:445-449 | With distinct names, looking a name up gives its member's row, or nothing |
| `Settles.RowMoves` | core/rcx/decide.go:356-424 | When no condition reads current, moving the group changes nothing in a row but who is current |
| `Settles.CreditHelps` | core/rcx/decide.go:503-510 | Moving the tolerance to a row that led without it keeps it in front |
| `Settles.SettlesInOneMove` | core/rcx/decide.go:147-285 | Once the group has gone where Decide sent it, Decide on the same evidence does not send it on, over the fixed, pinned, stranded, forced and ranked paths |
| `Settles.NotCurrentSwingsForever` | core/rcx/decide.go:405-414 | A tier that reads current need not settle: with the one tier not current, each decision leaves for the other node |
| `Overtake.TagReadsNoCheck` | core/rcx/policy.go:575-585 | Whatever a tag's text is, its condition reads no check |
| `Overtake.TiersLearn` | core/rcx/decide.go:405-414 | Learning more verdicts moves the first tier that holds no higher than the first unknown one and no lower than before |
| `Overtake.RowLearns` | core/rcx/decide.go:385-423 | With the pool decided, a row with no pending tier keeps its tier; any other ends between its pending tier and its tier; a row out for another reason stays out |
| `Overtake.OnlyPendingOvertakes` | core/rcx/decide.go:289-313 | Whoever becomes eligible above the present best tier once verdicts come in is one of the rows pendingNeeds draws from |
| `Overtake.NeedsAreTheNearest` | core/rcx/decide.go:289-313 | It names at most two rows that could rise, and none unnamed pends on a better tier than one named |
| `Flap.ControlRecord.SwitchesSince` | core/rcx/machine.go:580-588 | The loop counts the recorded switches after a moment |
| `Flap.ControlRecord.TrimTimes` | core/rcx/machine.go:699-707 | Trimming in place keeps exactly those after a moment, in order |
| `Flap.ControlRecord.Settle` | core/rcx/machine.go:614-639 | A decision to switch is recorded exactly when the core routes, the target is elsewhere and the selection succeeds |
| `Flap.FasterKeepsBounds` | core/rcx/decide.go:245-273 | A switch for being faster passed dwell and the flap limit, gains what is needed, and the row it goes to is in no better a tier |
| `Flap.FasterIsRare` | core/rcx/machine.go:590-639 | Over whole runs every switch for being faster comes at least Dwell after the group's previous switch, with fewer than MaxPerHour in the hour before; the trimmed list always counts the true number |
| `Flap.NoHourHoldsMore` | core/rcx/machine.go:590-639 | Under a constant limit no hour-long window, wherever it starts, holds more than MaxPerHour switches for being faster |
| `Confirm.Checks.Add` | core/rcx/machine.go:1000-1028 | A check is put in flight only within the two places, never over a busy key, not again within a minute unless it confirms, and only if paid for |
| `Confirm.Checks.SendPair` | core/rcx/machine.go:1036-1052 | A suspect's check goes out with that of a standby if both fit, and pending says how many did |
| `Confirm.Checks.OnResult` | core/rcx/machine.go:763-798 | An answer frees its key, proves the link if it succeeded, and is recorded in its group's pair, which is judged when nothing is pending |
| `Confirm.Checks.Resolve` | core/rcx/machine.go:819-838 | A pair is cleared, makes the network suspect, or condemns |
| `Confirm.AtMostTwoBought` | core/rcx/machine.go:988-1028 | In every reachable state at most two checks no user asked for are in flight |
| `Confirm.LiveJobsStay` | core/rcx/machine.go:1005-1028 | No live check is overwritten: it leaves only by its own result |
| `Confirm.PendingCountsThePair` | core/rcx/machine.go:800-838 | While no stray answer comes back, that of a check of an earlier pair of the same group, a bound group's pending count is the number of its pair's checks in flight |
| `Confirm.CondemnedWithCause` | core/rcx/machine.go:800-838 | Then a node condemned by a pair failed its own check of that pair, and the standby answered, or none was sent and the link was proven within a minute |
| `Confirm.ExactUnlessStray` | core/rcx/machine.go:789-838 | Through a whole run every count is exact and every pair judged with none of its checks out, if and only if no stray answer comes back in it |
| `Confirm.CleanIsExact` | core/rcx/machine.go:789-838 | It is enough that no group is bound anew while a check of its earlier pair is in flight |
| `Confirm.BoundTooSoonCondemnsAnother` | core/rcx/machine.go:789-838 | A group dropped and bound again with its pair in flight can get a stray answer, and condemn a node whose check has not come back |
| `Identities.IdentityIndex.Resolve` | core/rcx/identity.go:48-108 | Maps of the index as it was, entries rewritten in place, new ones appended, then trimmed: exactly the specified keys, matches and index |
| `Identities.IdentityIndex.Find` | core/rcx/identity.go:84-92 | A node is its unclaimed entry by fingerprint, else the only open one by endpoint, else by provider and name on its server |
| `Identities.IdentityIndex.FindUnique` | core/rcx/identity.go:65-77 | The loop finds the one open candidate, or none when there are several |
| `Identities.IdentityIndex.FindKey` | core/rcx/identity.go:94-97 | The rehash loop ends at the first key of its chain that is not claimed |
| `Identities.KeysAreDistinct` | core/rcx/identity.go:48-50 | A key is never handed to two nodes of one refresh, for every index and node list |
| `Identities.ResolvingAgainIsTheSame` | core/rcx/identity.go:51-108 | From an index without repeated keys or fingerprints, for nodes of distinct known configurations, untrimmed and with no key newly handed out already an entry's, resolving the same list again gives the same keys |
| `Identities.KnownNodesKeepTheirKeys` | core/rcx/identity.go:51-108 | In particular, with no condition on keys, where every node was recognised |
| `Ipc.ResumingWriter.Write` | core/server.go:73-97 | The loop waits timeouts out once a byte of the frame is out, and puts exactly the accepted bytes on the wire |
| `Ipc.ResumingWriter.WriteAll` | core/server.go:106-120 | Writes go on until all is out, an error, or a write that takes nothing |
| `Ipc.WriteFrame` | core/server.go:54-66 | A frame is its length and its bytes; what is written is a front part of it |
| `Ipc.Host.SendFrame` | core/server.go:138-169 | Nothing written drops the frame and keeps the connection; part written gives the connection up |
| `Ipc.HeaderRoundTrip` | core/server.go:58-59 | The little-endian length reads back |
| `Ipc.FrameRoundTrip` | core/server.go:122-136 | A frame reads back as its payload, whatever follows |
| `Ipc.WireStaysInSync` | core/server.go:54-169 | Under any schedule of short writes, stalls and errors the wire is the delivered frames in order and at most one more cut short, only if the connection was given up |
| `Ipc.DroppedLeavesTheWire` | core/server.go:158-161 | A frame reported lost with nothing written left the wire and the connection as they were |
| `Ipc.HostReadsWhatWasDelivered` | core/server.go:122-169 | Reading the wire gives exactly the delivered payloads in order, and the broken one only if all of it got out |
| `Ipc.StallsAreWaitedOut` | core/server.go:88-97 | A write once begun is not lost to stalls: it ends well, with all its bytes out, or with the pipe dead |
| `Chain.ChainOf` | core/rcx/policy.go:353-376 | The loop along what profiles extend gives the specified chain, or fails where it does |
| `Chain.ChainIsFound` | core/rcx/policy.go:352-376 | A chain is found if and only if following what each profile extends reaches one that extends nothing, meets no profile twice and goes through at most five; and then it is that one |
| `Chain.CyclesAreTooLong` | core/rcx/policy.go:352-376 | The look for cycles decides nothing: a chain that comes round is refused for its length alike |
| `Chain.ResolveChain` | core/rcx/policy.go:338-350 | The loop from the base to the profile merges exactly the layers of the chain |
| `Chain.ExtendingOnlyNarrows` | core/rcx/policy.go:338-405 | While none redefines a tag that a pool of one it extends reads, a resolved profile admits a node just when each pool of its chain does under the tags of its own profile, and admits nothing that a profile it extends, resolved, keeps out |
| `Layers.TaggedIsSeen` | core/rcx/decide.go:362-369 | In whatever order the tags are settled, a node has exactly those whose condition holds of it: a tag's condition reads no tag |
| `Scopes.CondGrows` | core/rcx/policy.go:576-597 | A text that parses in a scope parses alike in every scope that knows more tags and checks |
| `Scopes.CondReadsKnown` | core/rcx/cond.go:563-577 | A condition reads only tags its scope knows, so a tag's condition reads none |
| `Layers.MergedAdmits` | core/rcx/policy.go:381-405 | Always, whatever is redefined: a merged profile admits a node exactly when the pool of every layer admits it under the tags of the whole |
| `Layers.MergingOnlyNarrows` | core/rcx/policy.go:381-405 | Where no layer has a tag that a pool under it reads, exactly when every layer does under the tags merged up to it |
| `Redefined.RedefinedTagWidens` | core/rcx/policy.go:397-402 | Where one does, a child may widen: base tag good: udp with include tag(good), child good: alive, admits a living node without UDP |
| `Tiers.SortedByClass` | core/rcx/policy.go:609-618 | The stable sort is a partition: last resorts behind all others, each class in the profile's order |
| `Tiers.LastResortYields` | core/rcx/policy.go:609-618 | A node's tier is the first step that holds which is no last resort, wherever listed, and only without one the first last resort that holds |
| `Guards.DecisionsAreGuarded` | core/rcx/decide.go:147-285 | Whatever the evidence, a decision stays or goes to another member; for any reason but a fixed member or the stranded target, to one in the pool and a tier, not cooling down and not dead |
| `Guards.IncumbentIsLeftForCause` | core/rcx/decide.go:147-285 | An eligible incumbent is left only because the user fixed, pinned or asked for another, for a better tier on a fresh check, or for a gain within its tier that is large enough, confirmed by as many samples as the policy wants, after dwell and within the limit of the hour |
| `Bundles.FindFreeName` | core/rcx/bundle.go:27-38 | The loop over numbered names ends, at a name not taken |
| `Bundles.FirstFreeIsFirst` | core/rcx/bundle.go:33-37 | It is the first of those tried that is free |
| `Bundles.ProfileRefs` | core/rcx/bundle.go:73-107 | The loops over a profile or a scenario find exactly the names at its spots, in order |
| `Bundles.Collect` | core/rcx/bundle.go:134-170 | The worklist loop of Export, with its maps, gives the specified parts or fails where it does |
| `Bundles.NameDocs` | core/rcx/bundle.go:266-274 | The first loop of Unpack gives the specified names and the map that profiles are renamed by |
| `Bundles.RenameDocs` | core/rcx/bundle.go:275-291 | The second rewrites every document by that map |
| `BundleLaws.RefsRenamed` | core/rcx/bundle.go:73-107 | The names in a rewritten document are the rewritten names, place by place |
| `BundleLaws.RenameTwice` | core/rcx/bundle.go:174-176 | Rewriting on the way out and again on the way in is one rewriting |
| `BundleLaws.RenamingKeepsTheRest` | core/rcx/bundle.go:174-176 | Rewriting changes nothing in a document but the names of profiles |
| `Sharing.ReachedIsLeast` | core/rcx/bundle.go:134-170 | What Export gathers is the least set holding what the document names and what each held profile extends, built-in ones aside |
| `Sharing.ExportFailsIff` | core/rcx/bundle.go:115-170 | Export succeeds if and only if some such set has a readable document for every id in it |
| `Sharing.BundleReads` | core/rcx/bundle.go:210-243 | A bundle reads back as what was packed if and only if its text fits and every document in it is a mapping |
| `Sharing.UnpackedAreFresh` | core/rcx/bundle.go:245-293 | Whatever is unpacked, the names differ from one another and from those taken |
| `Sharing.SharedIsTheSame` | core/rcx/bundle.go:115-293 | Round trip: unpacking an export gives the document and every profile it needs, each as it was but for its names, and those name the same profiles where they landed |
| `Sharing.SharedAlone` | core/rcx/bundle.go:171-173 | A document that needs only built-in profiles is exported as it is and, unless it is a bundle itself, unpacked as that one document under a free name |
| `Imported.NamesStay` | core/rcx/bundle.go:27-38 | Where none of its names is taken a bundle is unpacked under the names it was packed with |
| `Imported.NamesResolveTheSame` | core/rcx/bundle.go:115-293 | Sharing keeps the policy: imported beside the same built-in profiles, each name in the document resolves by the same merge of the same layers, whatever a profile is read as |
| `Imported.ProfileResolvesTheSame` | core/rcx/bundle.go:115-293 | And so does a profile shared, under its new name |
| `Imported.BuiltinResolvesTheSame` | core/rcx/bundle.go:171-173 | So does each name of a document shared alone |
| `Imported.AloneResolvesTheSame` | core/rcx/bundle.go:171-173 | And a profile shared alone |
| `Budget.SpeedTestBudget.Reserve` | core/speed_test_budget.go:32-45 | A reservation is given whole units within what is wanted and available, or nothing |
| `Budget.GrantedFits` | core/speed_test_budget.go:35-42 | A grant never exceeds what is wanted or available, and comes in whole units |
| `Budget.Reservation.Consume` | core/speed_test_budget.go:76-86 | Consuming moves bytes from reserved to used, and is refused beyond what remains or after release |
| `Budget.Reservation.Release` | core/speed_test_budget.go:88-96 | Releasing gives back what remains, once |
| `Budget.BytesAreConserved` | core/speed_test_budget.go:25-96 | Over any sequence of operations what is reserved is what the reservations still hold, no direction is overdrawn, and what is spent stays within the byte limit |
| `Budget.UploadBody.Read` | core/speed_test_budget.go:121-138 | The k-th byte the body yields is payload[k mod len], up to the amount reserved, and none after a refusal |
| `Budget.UploadBody.Fill` | core/speed_test_budget.go:127-132 | The copy loop goes round the payload and leaves the offset where it stopped |
| `Meter.SpeedTestMeter.Add` | core/speed_test_measurements.go:510-516 | Bytes within the test go to the bin of their moment, all others nowhere |
| `Meter.SpeedTestMeter.Confirm` | core/speed_test_measurements.go:518-540 | Whatever each share is rounded to, exactly the confirmed bytes are added, within bounds and within the request's span |
| `Meter.SpeedTestMeter.Samples` | core/speed_test_measurements.go:548-568 | Samples rise strictly in time, never fall in bytes, hold the running sums, and end at the clamped moment; at the end of the test, with every byte accepted |
| `Tokens.TokenBucket.Take` | core/rcx/plan.go:125-141 | The bucket fills with time up to its rate and gives one token if it has one |
| `Tokens.GrantsAreRationed` | core/rcx/plan.go:125-141 | Over any stretch at rate r at most r plus r times its hours are granted, whatever the bucket held |
| `Tokens.EveryStretchIsRationed` | core/rcx/plan.go:125-141 | The same of every stretch within a longer run |
| `Tokens.ProbeBudget.Spend` | core/rcx/plan.go:196-219 | A new day opens new books; past the cap only the user and recovery spend; the user is never rationed |
| `Tokens.ProbeBudget.Charge` | core/rcx/plan.go:221-233 | Requests are booked with their bytes under their bucket |
| `Tokens.TheDayIsCapped` | core/rcx/plan.go:181-233 | Bytes are requests at 6 KiB, the buckets add up to the requests, and a day holds at most 3414 purchases to maintain, discover and diagnose |
| `Routes.TrialSortsRoutes` | core/rcx_routes.go:94-147 | After an attempt every route is injected or has a problem, never both |
| `Routes.RefusedStaysRefused` | core/rcx_routes.go:110-129 | Dropping routes only takes targets away: a route refused stays refused |
| `Routes.BlamedWasIn` | core/rcx_routes.go:67-83 | A route blamed was in the attempt and had not been dropped |
| `Routes.ParseRouted` | core/rcx_routes.go:32-61 | Against any parser the retries end; a parse that succeeds carries, ahead of the config's rules and in route order, exactly the routes without a problem; a config that fails without routes fails |
| `Candidate.Search.IsAllowed` | core/provider_policy.go:383-411 | The search with its map of seen names gives the specified answer and leaves the map as it was |
| `Candidate.CandidateMeansEveryWalkIsFine` | core/provider_policy.go:376-411 | A proxy is allowed exactly when every walk from it through members and dialers meets no name twice, goes no deeper than 64, and stands on groups with members and allowed nodes |

## Left out

- Texts of errors, reasons' arguments, journal, status and explanation fields that no decision reads.
- Invalid UTF-8, and 32-bit integers: texts are sequences of characters with their exact UTF-8 length, `int` is 64-bit where conditions read numbers and unbounded elsewhere; counters, revisions and byte counts do not wrap around.
- Floating point: tokens and hours are reals, shares of a bin are any rounding.
- YAML itself: documents are trees with string keys; a scalar carries its text and what it decodes to. Anchors, aliases, comments, key nodes and the parse of the merged document are not part of the model.
- Aliasing in the merge: after a key is taken from the source the Go code shares that node between two trees; here values are copied, and a nested mapping is merged in an object of its own and written back.
- `Drain.ShutKeeps`: shutting down clears the counter map and closes the drain in one step, where the code stores twice; nothing is promised of a closed engine but that nothing is handed over twice.
- `Drain.UndeliveredMovesOn`: freedom from deadlock only; `Progress` adds that the work under way ends, given that the scheduler runs some goroutine that can go on.
- `Settles.SettlesInOneMove`: with distinct member names, a tolerance not below zero and no condition reading `current`; a counterexample shows the last is needed.
- `Pool.LayersOnlyNarrow`: for layers that each parse alone in one scope, as a caller can check before joining, and for fixed tags; `Layers` and `Chain` say what redefined tags change.
- `Chain.ExtendingOnlyNarrows`: for given verdicts of checks by id; that a check of the same id may be defined anew along the chain is not modelled.
- `MergeLaws.MergeIsSymmetric`: with no key or name repeated and item names that are text.
- `Identities.ResolvingAgainIsTheSame`: when the index is not trimmed, and no key newly handed out is one an unmatched entry already had; names with a zero byte, which the joined name key could confuse, are kept apart here.
- `Confirm.PendingCountsThePair`: while no stray answer comes back; `Confirm.ExactUnlessStray` shows that the condition is exact. Which rows a plan asks for, its modes and windows, and the death of a node by two failures without a pair are not modelled.
- `Flap.NoHourHoldsMore`: while the limit stays the same; the controls' cooldowns, pins made by hand and network kinds only appear as the inputs of a round.
- `Batcher.NothingLostNothingStarved`: eviction from the full queues in front of the batcher is not modelled.
- `Ipc.StallsAreWaitedOut`: of one write; a pipe that stalls for ever is a schedule that never ends and is not modelled.
- `Candidate.CandidateMeansEveryWalkIsFine`: proxies are told apart by name; the policy's own switches, adapter types and fingerprints are one flag per node.
- `Sharing.SharedIsTheSame`: bundles are trees and their names are rewritten by copying, where the Go code rewrites the nodes in place; the text a tree is written as is only its length. A name whose scalar is tagged as anything but text is rewritten as text.
- `Imported.NamesResolveTheSame`: the profile parser is any reading of a document whose names are blanked out; that built-in profiles extend only built-in ones is required.
- Flattening nested selectors into a smart group, the fields of a profile other than its pool, tags and tiers, network kinds, scenarios, provider discovery, speed-test transports, subscriptions and the host's user interface.
