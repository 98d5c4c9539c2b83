# zordon and alpha: a verified model

zordon reads an Alphasfile, resolves its packages, evaluates its expressions in dependency order, and
hands the result to alpha. alpha brings up every toolchain, service and provision as a goroutine that
walks a small lifecycle and waits on the others' barriers. This project models the parts of both that
carry the hard guarantees, and proves them for all inputs and all runs. `dafny verify dfyconfig.toml`
checks everything.

| file | what it models |
|---|---|
| `Lifecycle`, `EntityLifecycles` | barriers, precedence graphs with their transitive predecessors, the four lifecycles |
| `BringupModel` | one configure run as a transition system: a program counter per goroutine, fired barriers per phase, stop and shutdown flags, the configure handler and the shutdown sweep; external work is a free choice of outcome |
| `BringupSafety`, `BringupTheorems` | the invariant of every reachable world, and what it says of outcomes, dependencies and the verdict |
| `BringupLaws`, `BringupCauses` | what happened in a run, told by its labels, and which barriers fire because of it |
| `BringupGuards` | what a step may wait for, who may be in a checkout, what the sweep leaves |
| `BringupProgress`, `BringupRest`, `BringupCycles` | every run is finite; what it comes to rest in; exactly when it can get stuck |
| `SharedContexts` | services whose supervisors run on one context, and exactly which guarantees that costs |
| `Packages`, `PackageStack`, `PackageToolchains` | features and imports resolved together by a worklist, the second search for the stack, the toolchain each package runs with |
| `PackageMeaning` | what a resolved stack is, without the worklist or the search; loading finishes exactly with it |
| `Dag`, `Evaluation` | the producer graph, its sort, and the fold over it |
| `FilterLexer`, `FilterParser`, `FilterPrinter` | the log-filter language, read and printed |
| `FilterSpelling`, `FilterSyntax` | which texts spell a token, and which writings of a tree are accepted |
| `FilterMeaning` | what a filter says of a line, read off its tree |
| `FilterPlan`, `FilterCompile` | the filter compiler: flattening, cost sort, matching |
| `Refs`, `RefUniqueness`, `RefGrammar`, `EnvOps` | ids and directives that one binary writes and the other decodes, and all that is accepted |
| `Picks` | the services a partial start keeps |
| `Paths`, `Sorting`, `Strings`, `Wrappers` | routes in graphs, lexical order, string searching, options and results |

Where the code and its comments part, the model follows the code:

- A bringup gets stuck on a phase in some run exactly when the phase leads to a cycle of waits
  (`StuckIffLeadsToCycle`). Builds and toolchains never take part: a provision may wait for its own
  service's build while the runtime waits for that provision.
- `topoSort` reports a cycle, with an empty list of members, when two nodes share an id.
- A call whose first argument is the string `)` does not parse back: the parser compares the text of
  the next token with `)` and not its kind (`internal/logfilter/parse.go:327`). `RoundTrip` is an
  if-and-only-if over this condition.
- The parser terminates on every token list that ends in the end-of-input token, which the lexer always
  appends; `next` does not move past the last token, so a list such as the single keyword `not` would
  keep `parseNot` calling itself.
- A `matches` pattern that starts with `^{0}` or `^{0,0}` is gated as if it were anchored: `literalPrefix`
  (`internal/logfilter/plan.go:266-282`) takes the leading `^` for an anchor, but the caret is repeated
  zero times. `matches(line, "^{0}foo")` holds of `xfoo` and the compiled filter keeps that line
  (`DroppedCaretLosesMatch`). A gate is sound exactly unless its pattern drops its caret, has a literal
  prefix and matches something (`GateIsSoundIff`); the theorems about compiled filters ask this only of
  the patterns a filter contains.
- A package called `component` below another package makes the ids in it unreadable, and so does a dot or
  an at-sign in a service's name, which the program accepts: of names it checks only that they are not
  empty and have no slash (`internal/alphasfile/identity.go:239-241`, `internal/alphasfile/dag.go:112-114`).
  For the services the program accepts, `AcceptedPhaseDispatch` is an if-and-only-if over these
  conditions. Whoever waits for the service `my.api` waits for `my`, or fails to resolve the ref if there
  is no such service (`DottedNameIsAnother`). `PhaseDispatch` covers every toolchain label; its further
  exception, a service `provision` of a toolchain `runtime`, is not an input the program accepts
  (`internal/alphasfile/eval.go:1159-1163`).
- Services are unique per component, toolchain and name (`docs/alphasfile.md:124`), and so are their ids,
  but alpha keeps services by component and name as read from the ref: the phase refs of the services `go`
  `api` and `rust` `api` are looked up as one (`ToolchainDoesNotShow`), and so are those of `my` and
  `my.api`. `PhaseTargetIsUnique` says exactly which phase refs are looked up as one.
- Provision ids are unique among services whose names do not look like a shorter name and a provision of
  it (`Opaque`); no name without a dot does. Every other name shares the id of each of its provisions with
  another service (`OpenNameCollides`).
- Services with one display name also share one context (`cmd/alpha/main.go:2371-2376`): both supervisors
  fire its barriers and close its done channel. A phase can then both succeed and fail, and alpha panics
  when the second supervisor returns. `SharedContexts` proves, for every configuration, that outcomes
  exclude each other, that each is decided, that no channel is closed twice and that a shutdown drains
  exactly if every service has a context of its own.
- An env directive without arguments comes back with one empty argument. An argument that comes out
  starting with `zbin:` is taken for a placeholder, with the NULs around it: `DirectiveSurvives` is an
  if-and-only-if over this condition, and `LikePlaceholderIsLost` says what such a literal turns into.
- Reaching a failure state also fires `running`, so success claims are about `ready` and `success`.

## Model

| member | source | states |
|---|---|---|
| Lifecycle.Def.constructor | internal/lifecycle/lifecycle.go:43-82 | the depth-first search lists, for every state once each, exactly the states with a non-empty route to it through declared edges, cycles and undeclared edge ends included |
| Lifecycle.Instance.Reach | internal/lifecycle/lifecycle.go:119-127 | fires the state and all its predecessors, nothing for an undeclared state, and undoes nothing |
| Lifecycle.FiredIsDownwardClosure | internal/lifecycle/lifecycle.go:119-127 | after any sequence of Reach calls, what has fired is the downward closure of the declared states reached |
| Lifecycle.FiredIsPredecessorClosed | internal/lifecycle/lifecycle.go:119-127 | no state has fired whose predecessor has not |
| EntityLifecycles.DownIsFires | internal/alphasfile/lifecycle.go:15-86 | what each state of the four lifecycles fires, written out, is the transitive closure of the declared edges |
| BringupSafety.InvKept | cmd/alpha/main.go:2730-2904 | every step of any goroutine, the handler, the sweep or the outside world keeps the invariant: what each goroutine has fired fits its program counter, what it waited for has fired, the barriers it holds exist, and the handler's progress is justified; a wait resolves its ref once and then selects on the barriers, also after the entity is removed |
| BringupTheorems.OutcomesExclude | cmd/alpha/main.go:2770-2857 | for services with contexts of their own, in every reachable world no service is both ready and failed, and no build or provision both succeeded and failed |
| BringupTheorems.OutcomesAreTotal | cmd/alpha/main.go:1058-1260 | for services with contexts of their own, a supervisor that has closed its done channel has fired exactly one outcome of each of its phases |
| BringupTheorems.StartsOnlyOnSuccess | cmd/alpha/main.go:2742-2857 | a build, process or provision shell has started only if its toolchain, its build and everything it awaits at a success state, transitively, had succeeded; `OutcomesHaveCauses` says what that takes |
| BringupTheorems.FailureBlocksDependents | cmd/alpha/main.go:2863-2904 | once a phase has failed, nothing that transitively needs its success starts for the rest of the run |
| BringupTheorems.VerdictIsSound | cmd/alpha/main.go:2426-2481 | at most one of EventDone and EventError is sent; EventDone means the lifeline was released, every service and every provision neither detached nor latent had its outcome and, under failfast, a good one; EventError means failfast and a failure among them; without EventDone the handler ends only in a shutdown |
| BringupCauses.OutcomesHaveCauses | cmd/alpha/main.go:2818-2857 | no outcome of a build, service, provision or toolchain fires in a run in which it did not happen: a build has succeeded only if its command did, a service is ready only if it was probed ready, a provision has failed only at a step that failed |
| BringupCauses.OutcomesAreFinal | cmd/alpha/main.go:2774-2797 | once the opposite has happened no world of the run has the outcome fired: a build whose command failed never counts as succeeded, nor a service that failed to start or to be probed as ready, nor a failed install or command as a success |
| BringupCauses.ReturnedTells | cmd/alpha/main.go:3111-3207 | when a goroutine has returned, its barriers tell exactly what happened in the run; and each failure that under failfast is to end alpha has, an exit after being ready among them |
| BringupCauses.ProvisionsDoTheirWork | cmd/alpha/main.go:1226-1260 | a provision has succeeded only if its check passed or its command succeeded in the run |
| BringupCauses.ShellsHaveCauses | cmd/alpha/main.go:1226-1257 | a provision with a check runs its command only after the check refused, and verifies only after the command succeeded |
| BringupCauses.ShutdownHasACause | cmd/alpha/main.go:568-573 | shutdown is requested only by an interrupt, by a failure that under failfast asks for it, or by the handler's error |
| BringupCauses.OnlyFailfastEndsAlpha | cmd/alpha/main.go:568-573 | without failfast only a request from outside ends alpha |
| BringupGuards.WaitsHaveReasons | cmd/alpha/main.go:2863-2904 | a service's wait passes only once its barrier fires, is cut short only by a failure of the awaited phase, a stop or the shutdown, and fails only on a ref that names nothing registered; each of these lets it move |
| BringupGuards.ProvWaitsHaveReasons | cmd/alpha/main.go:1092-1114 | and so does a provision's |
| BringupGuards.StepsHaveReasons | cmd/alpha/main.go:2811-2849 | exactly when a service may enter its checkout, have its build or process come out well or badly, pass or be turned away at the gate, and be killed when up, by barriers and flags alone |
| BringupGuards.ProvStepsHaveReasons | cmd/alpha/main.go:1164-1178 | exactly when a provision has its toolchain or gives up on it, and when its template is found |
| BringupGuards.StoppedNeverStarts | cmd/alpha/main.go:2836-2849 | a service asked to stop before it is through its build, or whose alpha is, never starts its process in the rest of the run |
| BringupGuards.FailedProbeEndsAlpha | cmd/alpha/main.go:3113-3135 | under failfast a failed probe has ended alpha by the time the service has returned, unless the service was asked to stop |
| BringupGuards.CheckoutsAreSerial | cmd/alpha/main.go:2811-2822 | no two services sharing a primary prepare their checkouts at once |
| BringupGuards.ShellsWaitForToolchains | cmd/alpha/main.go:1122-1140 | a provision runs a shell only once each toolchain that its snippets and env name has an outcome, or alpha is shutting down |
| BringupGuards.SweepLeavesNothingOut | cmd/alpha/main.go:1526-1555 | when the sweep is over, every service and provision has been unregistered, asked to stop, and has returned |
| BringupGuards.HandlerWaits | cmd/alpha/main.go:2426-2466 | the handler waits for services and for provisions neither detached nor latent, until their outcome or shutdown, and for nothing else |
| BringupGuards.RequestsStay | cmd/alpha/main.go:568-573 | a stop, a removal or an interrupt made in a run is in force at its end |
| BringupGuards.FlagsAreRequested | cmd/alpha/main.go:1526-1555 | and until the sweep nobody is stopped or removed without one |
| BringupProgress.StepSpends | cmd/alpha/main.go:2730-2904 | every step, of alpha or of the outside world, lowers a finite budget |
| BringupProgress.RunsAreFinite | cmd/alpha/main.go:2730-2904 | no run is longer than the budget of the world it starts in |
| BringupRest.ComesToRest | cmd/alpha/main.go:2730-2904 | from any world alpha's own steps alone reach one in which none of them is possible |
| BringupRest.ShutdownDrains | cmd/alpha/main.go:1526-1555 | for services with contexts of their own, once shutdown is requested, a run at rest has every done channel closed, shutdownAll returned and the handler gone, for any `after` graph, cyclic or with latent provisions |
| BringupRest.ShutdownReachesDrained | cmd/alpha/main.go:2390-2403 | for services with contexts of their own, from any reachable world with shutdown requested, the drained world is reached |
| BringupRest.StoppedSvcExits | cmd/alpha/main.go:2883-2901 | a service asked to stop ends up exited, wherever it was waiting |
| BringupRest.StuckLeadsToCycle | cmd/alpha/main.go:2863-2904 | what is unsettled at rest leads to a cycle of waits among runtimes and provisions |
| BringupRest.BringupSettles | cmd/alpha/main.go:2426-2481 | with an acyclic wait graph, prompt refs and external work that finishes, every toolchain, build, runtime and provision settles and the handler gives its verdict |
| BringupRest.RestIsSuccessOrShutdown | cmd/alpha/main.go:2426-2481 | such a run ends in a shutdown or in a success report for a stack that is up; under failfast any failed service or awaited provision ends it in a shutdown |
| BringupCycles.StuckIffLeadsToCycle | cmd/alpha/main.go:2863-2904 | for refs that resolve and are prompt, some run comes to rest with a phase unsettled exactly when the phase leads to a cycle of waits |
| SharedContexts.ReachableAlone | cmd/alpha/main.go:2371-2414 | with contexts of their own, supervisors on contexts do what a configure run does, and alpha does not panic |
| SharedContexts.OutcomesExcludeIff | cmd/alpha/main.go:2371-2414 | over all runs no phase both succeeds and fails, exactly if no two services share a context |
| SharedContexts.OutcomesAreTotalIff | cmd/alpha/main.go:2371-2414 | over all runs a supervisor that has returned has exactly one outcome of each phase, exactly if no two services share a context |
| SharedContexts.NeverPanicsIff | cmd/alpha/main.go:2730-2732 | no run closes a done channel twice, exactly if no two services share a context |
| SharedContexts.ShutdownDrainsIff | cmd/alpha/main.go:1526-1555 | every run at rest with shutdown requested is drained, exactly if no two services share a context |
| SharedContexts.ShutdownReachesDrainedIff | cmd/alpha/main.go:1526-1555 | every run with shutdown requested can be brought to the drained world, exactly if no two services share a context |
| Packages.PlainActive | internal/alphasfile/package.go:594-608 | the queue loop computes the least set of scopes outside packages closed under the links |
| Packages.SurelyActive | internal/alphasfile/package.go:564-585 | the fixpoint loop computes the least set of packages reached through imports without `enabled` |
| Packages.NeedsAreTheCounting | internal/alphasfile/package.go:499-541 | a package's needs are exactly the imports that count, and none of its imports is wrong |
| Packages.ImportersDone | internal/alphasfile/package.go:546-560 | true exactly when no pending package has an import of this one that its features decide |
| Packages.ResolveStable | internal/alphasfile/package.go:399-419 | once its blocking importers are resolved, resolving further packages changes nothing for a package |
| Packages.AlongIffConsistent | internal/alphasfile/package.go:399-436 | resolving along any order that respects the waits gives a settling exactly when the settling is consistent with itself |
| Packages.ConsistentIsUnique | internal/alphasfile/package.go:399-436 | unless packages import each other at most one settling is consistent, so the schedule does not matter |
| Packages.Resolver.Pass | internal/alphasfile/package.go:404-416 | a pass either resolves some pending package or leaves each of them waiting for another |
| Packages.Resolver.ResolvePackages | internal/alphasfile/package.go:399-443 | succeeds exactly when there is no cycle of blocking imports and some settling is consistent, and then finds it, with the needs kept for each package being those its imports ask for in the end; the import-each-other error names, sorted, exactly the packages that lead to a cycle, and any other error is true of a package or import of the tree |
| PackageStack.SureIsActive | internal/alphasfile/package.go:492-498 | a package that counted while still pending turns out to be in the stack |
| PackageStack.SettlingIsSelfConsistent | internal/alphasfile/package.go:613-649 | a package below the top level is in the stack exactly when an import counts or injects, with exactly the features those pass; an entry package has exactly the features its top-level import passes and those injected, and these cover its other importers' |
| PackageStack.StacksAgree | internal/alphasfile/tree.go:796-856 | with local names unique per scope, the breadth-first search over enabled links finds nothing the worklist leaves out, and the same stack exactly if it reaches every package with injected settings |
| PackageStack.FeedsAreHandedOn | internal/alphasfile/package_toolchain.go:41-45 | toolchains flow along exactly the counting imports, between packages, into active packages without a block of their own |
| PackageMeaning.ConsistentIffRight | internal/alphasfile/package.go:399-541 | the settlings that resolution leaves alone are the right ones: every import of the stack makes sense, each package is in the stack exactly for a reason, and runs with exactly the features passed to it |
| PackageMeaning.ConjunctionIsAll | internal/alphasfile/package.go:789-793 | a conjunction of features holds exactly when all of them are on, and its negation exactly when one is off |
| PackageMeaning.DisjunctionIsAny | internal/alphasfile/package.go:789-793 | a disjunction of features holds exactly when one of them is on |
| PackageMeaning.LooksAtItsFeatures | internal/alphasfile/package.go:778-793 | an `enabled` depends on the features it names and on no others |
| PackageMeaning.BlockingMeans | internal/alphasfile/package.go:546-560 | a package waits for another exactly if that one has an import of it which is not certain to count |
| PackageMeaning.ErrorsTell | internal/alphasfile/package.go:760-793 | each error about an import names what is wrong with it: a switch where no features are declared, an undeclared feature in it, a feature passed twice, or one the imported package does not declare |
| PackageMeaning.StackIsSearched | internal/alphasfile/tree.go:796-861 | the breadth-first search finds the least set with the entrypoint, its components, the modules of every package in it, and the package of every import that is switched on and not hidden by a later one of its name |
| PackageMeaning.ModulesInSight | internal/alphasfile/tree.go:796-830 | a scope may name the entrypoint's components if it is outside packages, and exactly its package's modules inside one |
| PackageMeaning.AllSeenIff | internal/alphasfile/tree.go:949-979 | the search goes wrong exactly when some scope has a switch in a package without features or over an undeclared one |
| PackageMeaning.Finish | internal/alphasfile/tree.go:764-861 | the two searches and the toolchain pass run one after the other; they succeed exactly if packages do not block each other and some settling is right, has sensible switches and hands at most one toolchain on to each package; that settling is found, the stack is what the second search finds, and a package has a toolchain exactly when its declarer hands it on along counting imports; a toolchain error names a package and two of its importers that differ |
| PackageToolchains.Resolve | internal/alphasfile/package_toolchain.go:28-66 | fails exactly when two different toolchains reach one package without a block, naming two importers that bring them; otherwise a package has a toolchain exactly when its declarer reaches it through packages without one, and the declarer kept with it is such a package |
| Sorting.LessIsLexical | internal/alphasfile/dag.go:346-359 | the order of ids is the lexical one: they agree up to a place where the first ends or has the lesser character |
| Dag.NewGraph | internal/alphasfile/dag.go:105-215 | a node depends on the parts given to it and on the other nodes its expressions name, nodes sharing an id together |
| Dag.TopoSort | internal/alphasfile/dag.go:327-378 | succeeds exactly when ids are distinct and the graph is acyclic; then every node follows its dependencies, the least possible first; otherwise exactly the nodes leading to a cycle are named |
| Dag.LeastFirstIsUnique | internal/alphasfile/dag.go:324-326 | there is one least-first order, so map iteration does not show |
| Evaluation.Plan | internal/alphasfile/eval.go:153-247 | the plan is such an order of the producers, or fails before anything is evaluated |
| Evaluation.Resolver.Compute | internal/alphasfile/eval.go:255-285 | evaluates each producer once in order, up to the first error, which is the fold over the order |
| Evaluation.FoldIffSolves | internal/alphasfile/eval.go:259-285 | folding over any topological order gives an environment exactly when it solves the recursive equations |
| Evaluation.OrderDoesNotMatter | internal/alphasfile/eval.go:259-285 | any two topological orders succeed alike and give the same environment |
| Evaluation.ReadsAreFinal | internal/alphasfile/eval.go:725-786 | no producer reads a value that is overwritten later |
| FilterLexer.Lex | internal/logfilter/parse.go:93-144 | the index loop yields the tokens of the grammar, ending in the end-of-input token |
| FilterLexer.LexString | internal/logfilter/parse.go:146-177 | the scan ends just past the closing quote with the unescaped contents, or reports an unterminated string |
| FilterParser.Parser.Or | internal/logfilter/parse.go:224-238 | the cursor-moving parser does what the grammar says on the rest of the input, and terminates |
| FilterParser.Parser.Args | internal/logfilter/parse.go:324-347 | the argument loop follows the grammar, token texts compared without their kind |
| FilterParser.ParseFilter | internal/logfilter/parse.go:57-70 | lexing and parsing give the tree of the grammar or the first error |
| FilterParser.Parse | internal/logfilter/parse.go:57-70 | a parsed tree has the grammar's shape and no call with the string `)` as first argument |
| FilterPrinter.ShowBack | internal/logfilter/parse.go:93-177 | lexing the printed tokens gives them back, string escapes included |
| FilterPrinter.OrBack | internal/logfilter/parse.go:224-238 | reading back a printed chain rebuilds its left nesting |
| FilterPrinter.RoundTrip | internal/logfilter/parse.go:222-347 | printing and parsing give back exactly the trees in which no call's first argument is the string `)` |
| FilterPrinter.PrintedFormIsEquivalent | internal/logfilter/parse.go:57-70 | the printed form of whatever was parsed parses to the same tree |
| FilterPlan.SortByCost | internal/logfilter/logfilter.go:276-283 | sorts the children in place, stably by cost, and returns their total |
| FilterPlan.ByCostSorts | internal/logfilter/logfilter.go:274-283 | the sort is a permutation in order of cost that keeps the order within each cost |
| FilterCompile.GateIsSoundIff | internal/logfilter/plan.go:266-282 | the literal-prefix gate of a pattern lets every match through, exactly unless the pattern drops its caret, has a literal prefix and matches something |
| FilterCompile.MatchesCallMeansIff | internal/logfilter/logfilter.go:113-118 | a compiled `matches` call says of every line what the call says exactly under that condition |
| FilterCompile.DroppedCaretLosesMatch | internal/logfilter/plan.go:266-282 | `matches(line, "^{0}foo")` compiles, holds of `xfoo`, and the compiled filter does not match it |
| FilterCompile.SoundInIff | internal/logfilter/plan.go:259-282 | a filter's gates are sound exactly when none of its patterns loses matches, and surely when none drops its caret |
| FilterSpelling.LexesIff | internal/logfilter/parse.go:93-177 | the lexer yields some tokens exactly for the texts that spell them, with spaces, tabs and line ends between, each word, number and operator ended where it cannot go on, and quotes and escapes resolved |
| FilterSyntax.ParsesIff | internal/logfilter/parse.go:222-347 | the parser gives a tree exactly for the ways of writing it: `or` weaker than `and` weaker than `not`, chains to the left, parentheses where one likes, whole numbers stopped at 64 bits |
| FilterCompile.CompilesIff | internal/logfilter/plan.go:12-257 | exactly the filters compile: conditions whose comparisons have a field on one side and a literal that fits it on the other, and calls with the line and a text |
| FilterCompile.AcceptsIff | internal/logfilter/logfilter.go:36-49 | an expression is accepted exactly if it is blank or the text of a filter |
| FilterCompile.MetadataReads | internal/logfilter/logfilter.go:121-137 | `stream == "w"` matches exactly the lines of the stream `w`, and likewise `service`, `!=`, and the text on the left |
| FilterCompile.SeverityReads | internal/logfilter/logfilter.go:140-151 | severities are compared as numbers, the six level names being 0 to 5, on either side; a line without one matches no comparison |
| FilterCompile.JsonReadsText | internal/logfilter/logfilter.go:154-163 | a JSON field is compared to a text as text, on either side; a missing one matches neither `==` nor `!=` |
| FilterCompile.JsonReadsNumber | internal/logfilter/logfilter.go:166-178 | and to a number as a number, by all six operators; a field that is none matches no comparison |
| FilterCompile.LogfmtReads | internal/logfilter/logfilter.go:180-190 | a logfmt key is compared to a text; a missing one matches neither `==` nor `!=` |
| FilterCompile.SubstringReads | internal/logfilter/logfilter.go:97-112 | `contains`, `hasPrefix` and `hasSuffix` match exactly the lines that contain the text, begin with it or end in it |
| FilterCompile.CollectsAsWritten | internal/logfilter/plan.go:36-48 | a chain is taken apart into its operands in the order they are written |
| FilterCompile.CostIsWeight | internal/logfilter/logfilter.go:85-95 | what a compiled filter costs is the sum of the measured weights of what it looks at |
| FilterCompile.LightestFirst | internal/logfilter/logfilter.go:276-283 | the operands of a compiled chain are matched lightest first |
| FilterCompile.CompileMeans | internal/logfilter/plan.go:12-63 | a filter that compiles, and whose own patterns have sound gates, says of every line what its tree says (`FilterMeaning`, which shares nothing with the compiler), read left to right, comparisons the way round they are written |
| FilterCompile.CompileIsPlanned | internal/logfilter/plan.go:36-63 | every and/or node at any depth holds its children in order of cost and costs their total |
| FilterCompile.ChainIsStablySorted | internal/logfilter/plan.go:36-63 | the children of a chain are its compiled operands, permuted by cost, equal costs in written order |
| FilterCompile.NestingDoesNotMatter | internal/logfilter/logfilter.go:199-229 | re-nesting a chain or permuting its operands changes neither whether it compiles nor what it drops, for any regex library |
| FilterCompile.DropsWhatTheSourceSays | internal/logfilter/logfilter.go:36-66 | a line is dropped exactly when the expression, as written, holds of it, unless one of its patterns loses matches; a blank expression drops nothing |
| Refs.ModulePathBack | internal/alphasfile/identity.go:29-64 | a module path of any nesting depth reads back exactly unless a later package is called `component` |
| Refs.ServiceBack | internal/alphasfile/identity.go:74-97 | a service ref, followed by more segments or not, reads back to its own module, toolchain and name exactly if no later package is called `component` and the name has neither a dot nor an at-sign |
| Refs.ToolchainBack | internal/alphasfile/identity.go:162-185 | a toolchain ref reads back to its own key under exactly that condition |
| Refs.ToolchainAfterBack | cmd/alpha/main.go:2708-2722 | the ref a service waits for its toolchain with decodes to the key alpha holds the toolchain under |
| Refs.DisplayNameBack | internal/alphasfile/identity.go:102-148 | a display name splits back into its module and name |
| Refs.PhaseLookup | cmd/alpha/main.go:487-561 | what the build and runtime refs of a service are looked up as, whatever it is called: a provision, the service whose name is read, or nothing |
| Refs.PhaseDispatch | cmd/alpha/main.go:487-561 | they are looked up as its own, exactly unless a later package is called `component`, the name has a dot or an at-sign, or the service is `runtime` `provision` |
| Refs.AcceptedPhaseDispatch | internal/alphasfile/eval.go:1159-1163 | for the toolchains and names a service may have, exactly unless a later package is called `component` or the name has a dot or an at-sign |
| Refs.ProvisionDispatch | cmd/alpha/main.go:510-524 | a provision ref is always looked up as that provision, whatever the service and the step are called |
| Refs.ToolchainDispatch | cmd/alpha/main.go:493-508 | a toolchain ref is looked up under its own key, exactly unless a later package is called `component` |
| Refs.ResolveSplits | cmd/alpha/main.go:488-492 | the last `@` separates entity and state of every ref buildBarrierAttrs writes |
| RefGrammar.PathIff | internal/alphasfile/identity.go:40-64 | of any text, a module path and what follows is read exactly if it is written `component.` and a word, or `package.`, words joined by `.package.`, `.component.` and a word, no later package being called `component` |
| RefGrammar.ServiceIff | internal/alphasfile/identity.go:74-97 | of any text up to its last at-sign, a module, toolchain, name and rest are read exactly if it is written so |
| RefGrammar.ToolchainIff | internal/alphasfile/identity.go:174-185 | of any text, a toolchain key is read exactly if it is written `toolchain.` and the key, or a module path, `.toolchain.` and a language |
| RefGrammar.DispatchIff | cmd/alpha/main.go:493-561 | any id is looked up as a toolchain, provision, build or runtime exactly if it is written as one, toolchains before provisions before services |
| RefGrammar.ResolvesIff | cmd/alpha/main.go:487-561 | any barrier ref is resolved to a target and state exactly if it is an id of that target, an at-sign and the state |
| RefGrammar.WrittenForms | internal/alphasfile/identity.go:24-109 | the refs, keys and display names zordon writes, spelled out for modules at any nesting depth |
| RefUniqueness.ServiceRefIsUnique | internal/alphasfile/identity.go:24-29 | services that differ in module, toolchain or name have different refs, whatever packages and services are called |
| RefUniqueness.ProvisionRefIsUnique | internal/alphasfile/identity.go:66-69 | provisions that differ, by step as well, have different refs if the services' names are opaque |
| RefUniqueness.OpenNameCollides | internal/alphasfile/identity.go:66-69 | and otherwise every provision of such a service has the ref of a provision of another |
| RefUniqueness.ToolchainRefIsUnique | internal/alphasfile/identity.go:162-172 | and toolchains, by module and language |
| RefUniqueness.PhaseTargetIsUnique | cmd/alpha/main.go:525-561 | two phase refs of accepted services are looked up as one exactly if module, name as read, and phase agree, or neither is looked up, or they are one ref taken for a provision's; the toolchain does not show |
| RefUniqueness.DottedNameIsAnother | cmd/alpha/main.go:540-561 | the accepted service `my.api` is looked up as the service `my` |
| RefUniqueness.ToolchainDoesNotShow | cmd/alpha/main.go:525-561 | the services `go` `api` and `rust` `api` have different refs and are looked up as one |
| RefUniqueness.ProvisionTargetIsUnique | cmd/alpha/main.go:510-524 | two provision refs of services with opaque names are looked up as one exactly if they name the same provision |
| RefUniqueness.ToolchainTargetIsUnique | cmd/alpha/main.go:493-508 | two toolchain refs that are read, of languages without a slash as all pins have, are looked up as one exactly if they name the same pin |
| EnvOps.Substitute | internal/alphasfile/eval.go:1958-1981 | the replacement loop computes the substitution, and terminates because the NUL count falls |
| EnvOps.Fill | internal/alphasfile/eval.go:1958-1981 | each placeholder among the arguments is filled in where it stands and nothing else changes, exactly if no argument comes out starting with `zbin:` |
| EnvOps.DirectiveSurvives | internal/alphasfile/eval.go:1930-1951 | substitution and parsing give back the operation and exactly the arguments with placeholders resolved, none as one empty argument, exactly under that condition |
| EnvOps.LikePlaceholderIsLost | internal/alphasfile/eval.go:1958-1981 | a literal that starts with `zbin:` is replaced by what it resolves to, and the next argument ends up in the operation |
| EnvOps.ParsesIff | internal/alphasfile/eval.go:1944-1951 | any value is parsed as a directive exactly if it is `zenvop:`, the operation and the arguments, free of NULs, led in and closed by NULs |
| EnvOps.FirstReplaced | internal/alphasfile/eval.go:1958-1981 | in any text the first closed placeholder is replaced by its directories joined with colons, and substitution goes on |
| EnvOps.KindlessErased | internal/alphasfile/eval.go:1972-1974 | or by nothing, if it names no kind |
| EnvOps.PlainStays | internal/alphasfile/eval.go:1960-1971 | a text without a closed placeholder stays as it is |
| EnvOps.SentinelForms | internal/alphasfile/eval.go:1930-1942 | what the placeholders and directives look like, character by character |
| Picks.Walk | cmd/zordon/start.go:43-91 | the worklist keeps exactly the services reached from the picks, in the order given |
| Picks.PickServices | cmd/zordon/start.go:43-91 | the same, with refs read by the ref decoder |
| Picks.KeptIsReached | cmd/zordon/start.go:84-90 | a service is kept exactly when it is one of those given and is reached from a pick |
| Picks.KeptIsClosed | cmd/zordon/start.go:64-82 | no service that a kept one mentions, in what its runtime or a provision waits for, is dropped |
| Picks.KeptIsLeast | cmd/zordon/start.go:53-91 | and whatever set holds the picks and all that its services mention holds every service kept |

## Left out

- Processes, signals, terminals, git, tool installation, HTTP, sockets and file walking: only success or failure of the work remains, as a free choice.
- Bringup covers one configure run after all entities are registered; provision invocations, cleaning, and the new contexts a reconfigure makes are not modelled, only its removal and stop of single entities.
- Grace periods, stabilization, timestamps, log lines and readiness strings: a grace period's end is a free choice.
- A primary checkout's lock is a guard on the other holders; the goroutines behind composed barriers are steps of their own.
- `Instance.Reach` is one step of a run although it fires barriers one by one, so closure is claimed between calls.
- The sweep waits for every service and provision, also those removed earlier; the code waits for those still registered.
- BringupRest.BringupSettles: assumes that refs are prompt, that is, not `stopped`, not a failure state and not a latent provision's; those may stay unfired without anything having gone wrong.
- BringupCycles.StuckIffLeadsToCycle: assumes also that every ref names a configured phase and a state it has; an unresolvable ref fails its waiter instead of blocking it.
- Inputs and outputs of packages, their types, merging and required checks; which of several errors is reported first.
- Loading of link tables; `Loaded` states what the loader guarantees of them, such as that links never name single modules.
- PackageStack.StacksAgree: assumes unique local names, since the search keeps only the last of two links with one name.
- Mapping of traversals to node ids in `newGraph`: a producer carries the ids its expressions name.
- What expressions compute: a producer is a function of the environment, which may read its dependencies, its own slot before evaluation, and values no producer writes.
- The sinks that are evaluated after the fold, and effects such as port allocation beyond being functions of the environment.
- Columns and texts of syntax errors; strings are sequences of characters rather than bytes.
- Values of decimal literals, rounding of integers to floating point, regular expressions, JSON, logfmt and severity scanning are functions of their inputs.
- FilterCompile.GateIsSoundIff: takes from the regex library, per pattern (`Lawful`), that matches begin with the literal prefix, that an anchored pattern with one matches at the start only unless its caret is dropped, and that such a pattern does not look at what precedes a match.
- FilterParser.Parse: covers token lists that end in the end-of-input token, the only ones the lexer makes.
- BringupTheorems.OutcomesExclude: about services with contexts of their own, which is exactly when it holds (`SharedContexts`).
- BringupTheorems.OutcomesAreTotal: about services with contexts of their own, which is exactly when it holds.
- BringupTheorems.FailureBlocksDependents: about services with contexts of their own; on a shared context the other supervisor may still succeed. The other results about bringup runs are stated for contexts of their own as well.
- BringupRest.ShutdownDrains: about services with contexts of their own, which is exactly when it holds.
- BringupRest.ShutdownReachesDrained: about services with contexts of their own, which is exactly when it holds.
- EnvOps.DirectiveSurvives: assumes, as the framing does, texts, kinds, refs and directories without NUL, and kinds without a colon.
- Provisions that share an id: the sweep waits for each, the code for the one it has registered.
- Expansion of picks to names, and service names that are not unique.
- The daemon, status rendering, the ring buffer, system environment merging and the lock file.
