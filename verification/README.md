# NChat: models and proofs

This project models five parts of the NChat repository that decide something about states they cannot
see, and proves what those decisions are worth.

- **The gateway route auditor** (`check_gateway_notifications.py`) reads Traefik's dynamic
  configuration and judges, from the text alone, which router wins every request under
  `/api/notifications` and what path the backend sees. Modelled here are its tokenizer and parser of
  router rules, its small prover over RE2 patterns, the expansion of middleware chains, every check, and
  the audit as a whole. A request model of Traefik stands on the other side: rules mean sets of requests,
  matchers the auditor does not know are arbitrary predicates, and so are all parts of Traefik that the
  checks do not constrain. The main theorem says what an empty problem list guarantees, another which
  configurations get one. The verdicts on rules are told in both directions: what is judged disjoint is
  refused, and which rules and patterns must be judged so.
- **The capacity preflight** (`candidate-capacity.py`) counts Kubernetes quantities exactly and compares
  the worst instant of a release with what is free. A RollingUpdate is a step system, several of them
  interleave, and the closed form the script computes is shown to be the maximum over every reachable
  joint state, so that exit 0 is a bound on all of them, and given exactly when there is one.
- **The publication protocol of the shared store** (`qualify-clamav-rwx.py`) is a system of processes
  that work one filesystem operation at a time under a lock and may die between any two. A second model
  gives the same operations a disk that forgets, to say what a loss of power can leave.
- **The controllers of the admin console** that keep late answers from being applied (the configuration
  review, the Health Center, the integration diagnostics, the session, the person picker) are state
  machines over their events, with answers landing in any order; each is also a class that changes its
  fields as the hook does, proved to take exactly those steps.
- **The manifest reader** (`prod_blue_green_query.py`) is the left inverse of a printer of kustomize's
  output.

Four results are about what the code does *not* ensure, each with the exact condition under which it does.

- *The probes.* The script exists so that the three probes, and they alone, reach the backend rewritten. An empty problem
  list gives the second half, but not the first. A probe request that an application router matches is rewritten, whoever
  wins it, if and only if some probe router matches it too and has a higher priority than every application router that does
  (`GatewayGuarantee.ProbesRewrittenExactly`). Neither follows from passing. The audit reads only which paths a probe rule
  mentions: with `||` between them the rule serves all three, with `&&` none, and both pass (`GatewayExample.SignDecides`).
  And a router without `entryPoints` listens everywhere but is compared with no probe router, so it passes at any priority
  (`GatewayExample.SpareDecides`, `GatewayGap.UnlistedRouterTakesTheProbes`). If application and probe routers all list
  their entry points, the priorities are right and it remains that some probe router matches
  (`GatewayGuarantee.ListedProbesLead`, `GatewayGuarantee.ProbesWin`); that condition is enough, not necessary.
- *Pruning the shared store* after a publisher was killed is safe against a loss of power unless the store had published
  before and the publisher was killed between replacing `state.json` and syncing the directory
  (`PowerLossPrune.PruningAfterKilledPublisher`); that moment is reached (`PowerLossProgress.PublishedStoreCanBreak`).
- *A malformed pod ceiling* of a node is refused unless an earlier node reports none (`ClusterInput.RefusedExactly`).
- *The configuration form* stays busy for nothing just when a write succeeds while a preview is outstanding, which cannot
  happen if reviews are opened only while it is not busy (`ConfigReview.TrackingBreaksExactly`, `ConfigReview.PreviewingIsExact`).

## Reading order

| part | files |
|---|---|
| gateway | `Text`, `RegexpSyntax`, `RegexpProver`, `RegexpComplete`, `RuleTokens`, `RuleSyntax`, `RuleVerdict`, `VerdictComplete`, `Middlewares`, `Gateway`, `GatewayAudit`, `GatewayGuarantee`, `GatewayGap`, `CallRules`, `GatewayExample`, `GatewayMeaning`, `ProbePattern` |
| capacity | `Quantity`, `QuantityText`, `Rollout`, `Preflight`, `CapacityRun`, `ClusterInput`, `CapacityFiles`, `CapacityMeaning` |
| shared store | `Runs`, `Publication`, `SharedStore`, `SharedStoreSafety`, `StorePrograms`, `SharedStoreProgress`, `PowerLoss`, `PowerLossSafety`, `PowerLossPrune`, `PowerLossProgress` |
| admin console | `AdminQuery`, `HealthCenter`, `ConfigReview`, `Diagnostics`, `AdminSession`, `UserSearch` |
| manifest reader | `ManifestReader`, `ManifestExact` |

`dafny verify dfyconfig.toml` checks everything.

## Model

| member | source | states |
|---|---|---|
| RegexpProver.CheckAlternationFree | scripts/ci/check_gateway_notifications.py:184-203 | the scan answers true exactly if, its plain classes taken out, the pattern holds no escape, bracket or flag group, its groups close in order, and no `\|` stands outside them |
| RegexpProver.AlternationFreeMeansOneBranch | scripts/ci/check_gateway_notifications.py:187-193 | however RE2 may read an accepted body, it reads a single top-level branch of plainly quantified atoms |
| RegexpProver.CheckRegexpDisjoint | scripts/ci/check_gateway_notifications.py:206-222 | the prover's verdict as a condition on the pattern text |
| RegexpProver.MatchesBeginWithRequiredText | scripts/ci/check_gateway_notifications.py:209-213 | every match of an accepted pattern starts at the start of the path and with the literal, less its last character before a quantifier |
| RegexpProver.RegexpDisjointIsSound | scripts/ci/check_gateway_notifications.py:206-222 | an accepted pattern matches no path under the prefix, for every reading of the pattern and every meaning of what is not literal in it |
| RegexpProver.ExactOnLiterals | scripts/ci/check_gateway_notifications.py:215-222 | on plain anchored literals the verdict is also complete: it is true if and only if no path under the prefix matches |
| RegexpComplete.LeadIsRequired | scripts/ci/check_gateway_notifications.py:206-218 | the literal every match must start with is the pattern's leading path characters, as far as each is to be matched once |
| RegexpComplete.UsualPatternVerdict | scripts/ci/check_gateway_notifications.py:181-222 | which patterns must be proved: of characters, anchors, quantifiers, groups without flags, and classes of letters, digits, `/`, `_`, `-` and `.`, behind `^`, just those whose leading literal is not empty, neither under the prefix nor a prefix of it, and in which no group opens with an optional class |
| RuleTokens.Tokenize | scripts/ci/check_gateway_notifications.py:167-178 | the loop over positions computes the token list, or refuses the text |
| RuleTokens.TokenizerExact | scripts/ci/check_gateway_notifications.py:164-178 | a text has these tokens if and only if it is their spelling, part by part, as the token pattern describes |
| RuleTokens.PrintedTokensReadBack | scripts/ci/check_gateway_notifications.py:164-178 | printing any tokens and cutting the text again gives the same tokens |
| RuleSyntax.ParserExact | scripts/ci/check_gateway_notifications.py:258-299 | the reader builds a tree for exactly the token lists that are that tree written out |
| RuleSyntax.WriteKeepsFormula | scripts/ci/check_gateway_notifications.py:281-299 | minimal parentheses under the precedence of `!`, `&&` and `\|\|` keep the formula |
| RuleSyntax.FormulaRoundTrip | scripts/ci/check_gateway_notifications.py:164-308 | any formula printed with minimal parentheses, tokenized and read, is the same formula, with every token consumed |
| RuleVerdict.MatcherSound | scripts/ci/check_gateway_notifications.py:241-255 | a matcher judged disjoint accepts no request with an application host and a path under the prefix |
| RuleVerdict.VerdictSound | scripts/ci/check_gateway_notifications.py:274-299 | a tree judged disjoint accepts no such request, matchers that are not known left arbitrary |
| RuleVerdict.Reader.Take | scripts/ci/check_gateway_notifications.py:267-272 | taking gives the token at the position and moves past it |
| RuleVerdict.Reader.AnyOrAll | scripts/ci/check_gateway_notifications.py:274-285 | the fused reader stops where the parser stops and answers the verdict of the tree it would have built |
| RuleVerdict.Reader.Operand | scripts/ci/check_gateway_notifications.py:287-299 | the same for an operand: negations, parentheses, matchers |
| RuleVerdict.CheckProvablyDisjoint | scripts/ci/check_gateway_notifications.py:302-308 | the verdict fused into the parser is the bottom-up verdict on the parsed tree, for every rule text |
| RuleVerdict.ProvablyDisjointIsSound | scripts/ci/check_gateway_notifications.py:302-308 | for every rule text: proved disjoint means no request for an application host under the prefix satisfies it |
| RuleVerdict.FormulaDecides | scripts/ci/check_gateway_notifications.py:281-299 | parentheses change neither what a rule accepts nor its verdict |
| RuleVerdict.PrintedVerdict | scripts/ci/check_gateway_notifications.py:164-308 | printing any formula and judging the text judges the formula |
| VerdictComplete.MatcherExact | scripts/ci/check_gateway_notifications.py:225-255 | Host with ASCII arguments, Path and PathPrefix are judged disjoint if and only if they accept no request of the application under the prefix |
| VerdictComplete.MatcherExactInEveryWorld | scripts/ci/check_gateway_notifications.py:245-255 | every matcher but PathRegexp is judged disjoint if and only if no Traefik whatever accepts such a request for it |
| VerdictComplete.HostMeans | scripts/ci/check_gateway_notifications.py:225-238 | a rule host accepts its own name in lower case, and that with one period more or one less at the end |
| VerdictComplete.VerdictFindsWhatIsShown | scripts/ci/check_gateway_notifications.py:274-299 | a tree with a refusing matcher in some operand of each `&&` and in all operands of each `\|\|` must be judged disjoint, and without regular expressions no other tree is |
| VerdictComplete.VerdictExact | scripts/ci/check_gateway_notifications.py:302-308 | for every text that reads as alternatives of hosts, of paths, or of hosts and paths, the verdict is exact: positive if and only if no request of the application under the prefix satisfies the rule |
| VerdictComplete.OneRefusingOperandIsEnough | scripts/ci/check_gateway_notifications.py:274-285 | `&&` of any printable formula with one matcher that shows its refusal is judged disjoint, in either order |
| VerdictComplete.EveryAlternativeCounts | scripts/ci/check_gateway_notifications.py:274-285 | `\|\|` of two rules is judged disjoint if and only if both are |
| Middlewares.OwnKindsExact | scripts/ci/check_gateway_notifications.py:53-54 | a definition without a chain applies every kind it holds, with its body, in order |
| Middlewares.ChainMembersExact | scripts/ci/check_gateway_notifications.py:38-41 | a chain lists the members of its middlewares, and is malformed where these are no list |
| Middlewares.ExpansionExact | scripts/ci/check_gateway_notifications.py:44-67 | the expansion reports nothing if and only if the references have a finite meaning, and then it is that meaning, in order |
| Middlewares.ExpansionIsReachability | scripts/ci/check_gateway_notifications.py:44-67 | without a report, the result holds every non-chain middleware reachable from the router and nothing else |
| Middlewares.ReachableCycleIsReported | scripts/ci/check_gateway_notifications.py:46-50 | a chain cycle that can be reached is always reported |
| GatewayAudit.Auditor.Classify | scripts/ci/check_gateway_notifications.py:135-160 | routers are sorted by role, in order, and every entry that is no mapping is reported |
| GatewayAudit.Auditor.CheckCommon | scripts/ci/check_gateway_notifications.py:85-97 | reports unless service, middlewares and security headers are as demanded; hands on the path-changing middlewares |
| GatewayAudit.Auditor.CheckProbe | scripts/ci/check_gateway_notifications.py:100-106 | reports unless the router matches exactly the three probe paths and changes the path by the probe rewrite alone |
| GatewayAudit.Auditor.CheckApp | scripts/ci/check_gateway_notifications.py:109-114 | reports unless the router has one prefix and leaves the path alone |
| GatewayAudit.Auditor.CheckEntrypoint | scripts/ci/check_gateway_notifications.py:121-132 | reports unless each entry point has both kinds, probes above applications, and TLS where it is due |
| GatewayAudit.Auditor.CheckShadowing | scripts/ci/check_gateway_notifications.py:346-355 | reports unless no other router can win a request of the application |
| GatewayAudit.PassesInSteps | scripts/ci/check_gateway_notifications.py:377-392 | the checks role by role and router by router are together the audit's condition |
| GatewayAudit.Audit | scripts/ci/check_gateway_notifications.py:377-392 | the problem list is empty if and only if every condition holds |
| GatewayGuarantee.BackendPathOfRole | scripts/ci/check_gateway_notifications.py:100-114 | the middlewares of a passing router leave the path as it is, or rewrite the probe paths as the probe expression says |
| GatewayGuarantee.ApplicationRuleReads | scripts/ci/check_gateway_notifications.py:358-374 | a rule of the exact form is read as the conjunction of that host and the prefix |
| GatewayGuarantee.AcceptedHostIsListed | scripts/ci/check_gateway_notifications.py:361-374 | the host of a request that an application router accepts is among the application hosts |
| GatewayGuarantee.OthersAreBelow | scripts/ci/check_gateway_notifications.py:332-355 | a router of no role that matches such a request too has a lower priority |
| GatewayGuarantee.AuditGuarantee | scripts/ci/check_gateway_notifications.py:332-392 | an empty problem list guarantees, for every request under the prefix that some application router matches on a public entry point, that every winner is an application or probe router, forwards to notification-service behind the security headers, and hands on the path unchanged or as the probe rewrite makes it |
| GatewayGuarantee.ProbesWinExactly | scripts/ci/check_gateway_notifications.py:121-132 | under a passing configuration only probe routers can win a request that an application router matches, if and only if some probe router matches it and is above every application router that does |
| GatewayGuarantee.ProbesRewrittenExactly | scripts/ci/check_gateway_notifications.py:4-11 | under a passing configuration a request for one of the three probes is rewritten, whoever wins it, if and only if that holds; no other request is ever rewritten |
| GatewayGuarantee.ListedProbesLead | scripts/ci/check_gateway_notifications.py:117-132 | if application and probe routers list their entry points, that holds if and only if some probe router matches at all |
| GatewayGuarantee.ProbesWin | scripts/ci/check_gateway_notifications.py:121-132 | if application and probe routers list their entry points, a request that a probe router matches goes to a probe router, rewritten, with TLS terminated on websecure |
| GatewayMeaning.GuaranteeInWords | scripts/ci/check_gateway_notifications.py:19-35 | the guarantee with every name and path written out: service, headers, entry points, prefix, the three probes and what they are rewritten to |
| GatewayMeaning.CommonMeans | scripts/ci/check_gateway_notifications.py:85-97 | what is asked of every notifications router that lists its middlewares and entry points: a finite meaning of the middlewares, security headers in it, the service, TLS on websecure, a plain priority |
| GatewayMeaning.TlsMeans | scripts/ci/check_gateway_notifications.py:70-78 | TLS is terminated if and only if tls is a mapping of options, certResolver and domains at most |
| GatewayMeaning.PriorityMeans | scripts/ci/check_gateway_notifications.py:311-323 | left out or zero, the priority of an ASCII rule is its length; another integer is itself; anything else is unknown |
| GatewayMeaning.BothRolesOnBoth | scripts/ci/check_gateway_notifications.py:121-126 | a passing configuration has an application and a probe router on web and on websecure |
| GatewayMeaning.ProviderIsLeftAside | scripts/ci/check_gateway_notifications.py:46 | a reference names the middleware before its provider |
| GatewayMeaning.PrefixCallsCounted | scripts/ci/check_gateway_notifications.py:109-112 | of a rule written as calls of PathPrefix the script counts the calls and sees no Path |
| GatewayMeaning.ApplicationRuleMeans | scripts/ci/check_gateway_notifications.py:109-114 | such an application router passes if and only if there is one call and no middleware changes the path; one written with Path does not |
| GatewayMeaning.PrefixCallsMean | scripts/ci/check_gateway_notifications.py:135-140 | calls of PathPrefix make an application router if and only if one of their paths is under the prefix, and never a probe router |
| GatewayMeaning.PathCallsMean | scripts/ci/check_gateway_notifications.py:135-140 | calls of Path make a probe router if and only if one of their paths lies below the prefix, and never an application router |
| GatewayMeaning.RewritesOnceMeans | scripts/ci/check_gateway_notifications.py:104-106 | one path-changing middleware that is the probe rewrite means one rewrite among middlewares that leave the path alone |
| GatewayMeaning.RewriteMeans | scripts/ci/check_gateway_notifications.py:104-106 | the probe rewrite is a replacePathRegex whose mapping holds just this expression and this replacement |
| GatewayMeaning.ProbeRuleMeans | scripts/ci/check_gateway_notifications.py:100-106 | a probe router of calls of Path passes if and only if these are the three probe paths and the path is rewritten once |
| GatewayMeaning.ExactFormExact | scripts/ci/check_gateway_notifications.py:358-374 | a rule restricts an application router to a host if and only if it is Host of that host and PathPrefix of the prefix joined by `&&`, with white space around them |
| GatewayMeaning.ExactFormIsApplication | scripts/ci/check_gateway_notifications.py:135-140 | a router of that form is an application router |
| GatewayMeaning.ApplicationHostsExact | scripts/ci/check_gateway_notifications.py:361-374 | where every application router is so restricted, the application hosts are just what one of them accepts |
| GatewayMeaning.BystanderPasses | scripts/ci/check_gateway_notifications.py:326-355 | a router of another service may be added to a passing configuration if and only if it lists no public entry point, or is below every application router, or is proved disjoint, and its entry points can be hashed |
| GatewayMeaning.EntryMeans | scripts/ci/check_gateway_notifications.py:121-132 | an entry point is in order if and only if routers of both roles mention it and every such probe router has the higher priority than every such application router |
| GatewayMeaning.PassesInWords | scripts/ci/check_gateway_notifications.py:377-392 | where application and probe routers list their middlewares and entry points, a configuration passes if and only if each meets what its role asks, web and websecure are in order, every entry is a mapping, and no other router can take over |
| ProbePattern.PatternIsTheProbes | scripts/ci/check_gateway_notifications.py:19-21 | the rewrite's pattern reads as a tree that is found in the three probe paths and in no other |
| GatewayGap.StillPasses | scripts/ci/check_gateway_notifications.py:117-132 | an application router without entry points and with any higher priority adds nothing the audit objects to |
| GatewayGap.StillPassesWithRoles | scripts/ci/check_gateway_notifications.py:117-132 | where every router is an application or probe router, the audit accepts such a router at every priority |
| GatewayGap.UnlistedRouterTakesTheProbes | scripts/ci/check_gateway_notifications.py:117-132 | for every passing configuration that addition passes, stays a dictionary under a fresh name, leaves every other router matching what it matched, and yet wins every request of its rule, probe requests unrewritten |
| CallRules.RuleReads | scripts/ci/check_gateway_notifications.py:28-31 | from a rule of calls joined by one sign the audit captures exactly the arguments, whichever sign it is, and the rule reads as those calls grouped from the left |
| CallRules.CapturedStands | scripts/ci/check_gateway_notifications.py:28-31 | whatever is captured from any text stands there in a call of its own, its word not the end of a longer one |
| CallRules.RuleMeans | scripts/ci/check_gateway_notifications.py:281-299 | joined by `\|\|` such a rule accepts what some call accepts, joined by `&&` what all accept |
| CallRules.PathsMean | scripts/ci/check_gateway_notifications.py:100-103 | an alternation of paths accepts exactly these paths, a conjunction of different ones nothing |
| GatewayExample.ExamplePasses | scripts/ci/check_gateway_notifications.py:377-392 | a configuration of one application and one probe router passes, its probe paths joined by either sign, every entry point listed |
| GatewayExample.SignDecides | scripts/ci/check_gateway_notifications.py:100-103 | for that configuration every probe request is rewritten if the sign is `\|\|`, and none is if it is `&&`: the application router wins it |
| GatewayExample.SpareDecides | scripts/ci/check_gateway_notifications.py:117-132 | with a spare application router without entry points it passes at every nonzero priority, and probe requests are rewritten if and only if that is below the probe router's |
| Quantity.InUnitsExact | scripts/deploy/nchat-prod/candidate-capacity.py:186-215 | the count is exactly the ceiling of value times units when that fits in 2^63-1 and a refusal otherwise; neither shortcut disagrees |
| Quantity.TinyIsOne | scripts/deploy/nchat-prod/candidate-capacity.py:203-205 | more decimal places than the numerator has digits means a positive value below one unit |
| Quantity.HugeDoesNotFit | scripts/deploy/nchat-prod/candidate-capacity.py:89-106 | beyond the exponent bound no suffix brings a value back into range |
| Quantity.SameValueSameCount | scripts/deploy/nchat-prod/candidate-capacity.py:186-215 | two quantities of one value give the same count or are both refused |
| QuantityText.ReadPrints | scripts/deploy/nchat-prod/candidate-capacity.py:61-64 | what is read was written so |
| QuantityText.PrintReads | scripts/deploy/nchat-prod/candidate-capacity.py:61-64 | what is written by the grammar is read back, piece by piece |
| QuantityText.NumberOfJoined | scripts/deploy/nchat-prod/candidate-capacity.py:168-176 | the digits before and behind the point make the whole number the exponent is taken from |
| QuantityText.ParseExact | scripts/deploy/nchat-prod/candidate-capacity.py:134-165 | parsing accepts exactly the written forms and gives the value each denotes; negative ones are refused, minus zero is zero |
| QuantityText.CountTextExact | scripts/deploy/nchat-prod/candidate-capacity.py:134-215 | from text to count: the exact ceiling of the value written, or a refusal |
| QuantityText.BinarySuffixes | scripts/deploy/nchat-prod/candidate-capacity.py:71 | Ki, Mi, Gi, Ti, Pi and Ei are the powers of 1024 in this order |
| QuantityText.DecimalSuffixes | scripts/deploy/nchat-prod/candidate-capacity.py:69-70 | k and K are a thousand, M, G, T, P and E its powers in this order |
| QuantityText.SmallSuffixes | scripts/deploy/nchat-prod/candidate-capacity.py:69-70 | m, u and n are a thousandth, a millionth and a billionth |
| QuantityText.BareExact | scripts/deploy/nchat-prod/candidate-capacity.py:134-165 | a quantity's text has lost the white space around it, and then the quotes of both kinds, and nothing else |
| Rollout.PeakIsMaximum | scripts/deploy/nchat-prod/candidate-capacity.py:363-384 | the closed form is the maximum over all pod splits within the three limits, attained by one of them |
| Rollout.ReachableExact | scripts/deploy/nchat-prod/candidate-capacity.py:366-372 | the reachable instants are those splits, and the old pods not yet scaled down |
| Rollout.ReachableCost | scripts/deploy/nchat-prod/candidate-capacity.py:363-384 | no reachable instant costs more than the greater of peak and held, and one costs just that |
| Rollout.PeakIsGreatest | scripts/deploy/nchat-prod/candidate-capacity.py:363-384 | with the limits written out, the closed form is the greatest cost over all splits of at most the desired new pods, at most the running old ones and at most the surge over both |
| Rollout.PassesThrough | scripts/deploy/nchat-prod/candidate-capacity.py:366-372 | the rollout passes through a split if and only if it keeps those limits or is a scale-down of old pods alone |
| Rollout.SurgeIsUsed | scripts/deploy/nchat-prod/candidate-capacity.py:366-372 | all new pods can stand beside as many old ones as the surge allows |
| Preflight.AdditionalIsExtra | scripts/deploy/nchat-prod/candidate-capacity.py:387-411 | the additional demand is the extra of the rollout, a missing slot counting as one with zero replicas |
| Preflight.WorstOfOne | scripts/deploy/nchat-prod/candidate-capacity.py:401-411 | held plus additional demand is the cost of a reachable instant, and no reachable one costs more |
| Preflight.Summarise | scripts/deploy/nchat-prod/candidate-capacity.py:414-425 | the loop adds up the demand of every workload, dimension by dimension |
| Preflight.AdditionalMeans | scripts/deploy/nchat-prod/candidate-capacity.py:387-411 | a workload outside the slot needs all its replicas in each dimension; one in the slot, what its worst instant costs beyond what it holds, by the requests of that dimension |
| Preflight.FirstDeployMeans | scripts/deploy/nchat-prod/candidate-capacity.py:395-399 | a first deploy needs the requests of every replica and a pod slot for each |
| Preflight.TotalMeans | scripts/deploy/nchat-prod/candidate-capacity.py:414-425 | the whole demand is the sum over the workloads |
| Preflight.JointlyReachableExact | scripts/deploy/nchat-prod/candidate-capacity.py:414-425 | the interleaved rollouts reach exactly the combinations of what each reaches alone |
| Preflight.UsageBound | scripts/deploy/nchat-prod/candidate-capacity.py:414-425 | every joint state stays within held plus additional demand, and one attains it |
| Preflight.HeldTotalIsShare | scripts/deploy/nchat-prod/candidate-capacity.py:401-411 | what is subtracted as held is the slot's share of what is committed, each Deployment once |
| Preflight.FitExact | scripts/deploy/nchat-prod/candidate-capacity.py:387-425 | the demand fits what is free if and only if no joint instant commits more than the limit |
| CapacityRun.FigureExact | scripts/deploy/nchat-prod/candidate-capacity.py:700-703 | a figure of the quota is missing only if nothing is written; of cpu, memory and storage it is the exact count of the value written, of pods the number written in digits alone, or unusable |
| CapacityRun.FigureRefused | scripts/deploy/nchat-prod/candidate-capacity.py:134-165 | what is no quantity is unusable in every dimension |
| CapacityRun.Report.Compare | scripts/deploy/nchat-prod/candidate-capacity.py:682-692 | a comparison sets the one flag its limit calls for and clears none |
| CapacityRun.Report.CompareQuota | scripts/deploy/nchat-prod/candidate-capacity.py:789-804 | the four quota dimensions, or a refusal if any figure cannot be used |
| CapacityRun.Report.CompareCluster | scripts/deploy/nchat-prod/candidate-capacity.py:850-854 | the four dimensions of what the nodes offer |
| CapacityRun.FlagsDecide | scripts/deploy/nchat-prod/candidate-capacity.py:671-697 | the two flags over both sets of limits say whether some known limit is exceeded and whether all are known and met |
| CapacityRun.Run | scripts/deploy/nchat-prod/candidate-capacity.py:807-855 | each exit code exactly: unusable input, a shortfall, a gap, or a fit in all eight dimensions |
| CapacityRun.ExitOkIsABound | scripts/deploy/nchat-prod/candidate-capacity.py:671-697 | exit 0 if and only if all eight limits are known and hold at every jointly reachable instant |
| ClusterInput.FieldsOfJoined | scripts/deploy/nchat-prod/candidate-capacity.py:495-522 | splitting on the single separator gives every position back, empty ones included |
| ClusterInput.RequestsMeanContainer | scripts/deploy/nchat-prod/candidate-capacity.py:617-639 | each request is read from its own position, whether or not its neighbours are there |
| ClusterInput.LineMeansContainer | scripts/deploy/nchat-prod/candidate-capacity.py:479-544 | a line commits its container's requests exactly if the pod is bound and not finished, and is refused for any unreadable quantity |
| ClusterInput.SumScheduledPodRequests | scripts/deploy/nchat-prod/candidate-capacity.py:642-668 | the loop computes the file's sum, reading every line before deciding whether it counts |
| ClusterInput.FilesAddUp | scripts/deploy/nchat-prod/candidate-capacity.py:642-668 | files add up in either order, and one broken line breaks the whole |
| ClusterInput.SumNodePodSlots | scripts/deploy/nchat-prod/candidate-capacity.py:547-567 | the loop answers the total, that it is unknown, or that the file is broken |
| ClusterInput.FileMeansContainers | scripts/deploy/nchat-prod/candidate-capacity.py:642-668 | a file of the collector commits the sum of what its containers hold |
| ClusterInput.CountScheduledPods | scripts/deploy/nchat-prod/candidate-capacity.py:596-614 | the loop counts the pods that are bound and not finished, or finds the file broken |
| ClusterInput.NodeLineMeans | scripts/deploy/nchat-prod/candidate-capacity.py:495-522 | every position of a node's line is read as such, and those left out at the end as empty |
| ClusterInput.SumNodeAllocatable | scripts/deploy/nchat-prod/candidate-capacity.py:570-593 | the loop adds up what the nodes offer, storage unknown if one node omits it, or finds the file broken |
| ClusterInput.RefusedExactly | scripts/deploy/nchat-prod/candidate-capacity.py:556-567 | a file is refused if and only if a broken line precedes every node that reports no slots |
| ClusterInput.KnownExactly | scripts/deploy/nchat-prod/candidate-capacity.py:547-567 | the total is known if and only if every node reports a number and some slot is offered, and then it is their sum |
| CapacityFiles.ReadCluster | scripts/deploy/nchat-prod/candidate-capacity.py:836-849 | the cluster's limits as the files say, unknown where a file is absent, refused where one is broken |
| CapacityMeaning.NodesAreRead | scripts/deploy/nchat-prod/candidate-capacity.py:495-593 | from the lines of any nodes the limits are the sums of what they offer, dimension by dimension, unknown where a node does not report one, and refused just where a quantity is none |
| CapacityMeaning.UseIsRead | scripts/deploy/nchat-prod/candidate-capacity.py:596-668 | from the lines of any containers and pods the use is the sum over those bound to a node and not finished |
| CapacityMeaning.ClusterMeans | scripts/deploy/nchat-prod/candidate-capacity.py:836-854 | every limit the run compares with is such a pair of sums over the collector's records; the input is refused if and only if one of them breaks the contract |
| CapacityMeaning.QuotaMeans | scripts/deploy/nchat-prod/candidate-capacity.py:789-804 | every quota limit is its two texts, each read by the reading of its own dimension, unknown where nothing is written |
| Text.StripExact | scripts/deploy/nchat-prod/candidate-capacity.py:479-492 | stripping takes the white space off both ends, all of it and nothing else |
| CapacityFiles.RunOnFiles | scripts/deploy/nchat-prod/candidate-capacity.py:807-855 | from the texts of the quota and the lines of the files to each exit code exactly, and exit 0 as the bound on every reachable joint instant |
| SharedStoreSafety.PublisherKeeps | scripts/testing/qualify-clamav-rwx.py:39-59 | every operation of a publisher keeps the store consistent and what the publisher relies on |
| SharedStoreSafety.PrunerKeeps | scripts/testing/qualify-clamav-rwx.py:73-83 | every operation of a pruner keeps the selected generation whole |
| SharedStoreSafety.ObserverKeeps | scripts/testing/qualify-clamav-rwx.py:62-70 | every check of an observer on a consistent store succeeds |
| SharedStoreSafety.RunIsSafe | scripts/testing/qualify-clamav-rwx.py:29-106 | in every run, under every interleaving the lock allows and with any deaths, the store is consistent at every instant |
| SharedStoreSafety.NoPartialPublication | scripts/testing/qualify-clamav-rwx.py:29-106 | whenever state.json exists it records a generation whose three parts are there with the recorded hashes, and no observer meets anything else |
| SharedStoreSafety.OnlyPublishingReselects | scripts/testing/qualify-clamav-rwx.py:54-82 | only a publisher's replacement changes the selection, to what that publisher wrote; no pruner removes it |
| SharedStoreSafety.ObservedStoreStandsStill | scripts/testing/qualify-clamav-rwx.py:62-70 | while an observer holds the lock, the store does not change |
| SharedStoreProgress.LockIsGranted | scripts/testing/qualify-clamav-rwx.py:28-36 | an idle store grants the lock to any process at its start; a store in use grants it to one that shares it, beside others that do, and to nobody else |
| SharedStoreProgress.LockIsReturned | scripts/testing/qualify-clamav-rwx.py:28-36 | whoever holds the lock can give it up at any moment |
| SharedStoreProgress.PublisherStopsExactly | scripts/testing/qualify-clamav-rwx.py:39-59 | wherever a publisher stands it can go on, unless it has finished or meets a candidate of that name, a generation in its place or a half-written record |
| SharedStoreProgress.PublicationGetsThrough | scripts/testing/qualify-clamav-rwx.py:39-59 | on an idle store with room for the generation a publication can go through, and selects it |
| SharedStoreProgress.PruningGetsThrough | scripts/testing/qualify-clamav-rwx.py:73-83 | on an idle store with a record and no broken generation a pruning can go through, and leaves the selected generation alone |
| SharedStoreProgress.ObserversTogether | scripts/testing/qualify-clamav-rwx.py:62-70 | any number of observers can hold the lock at once, each with the selected generation verified |
| SharedStoreProgress.SomeRunSucceeds | scripts/testing/qualify-clamav-rwx.py:28-83 | a run from the empty store publishes two generations, prunes the first away and ends with any number of observers that hold the lock and have verified the second |
| StorePrograms.Store.constructor | scripts/testing/qualify-clamav-rwx.py:88-93 | the initialised store is empty |
| StorePrograms.Store.Publish | scripts/testing/qualify-clamav-rwx.py:39-59 | undisturbed, a publication succeeds if and only if its candidate is new, its generation free and no record half written; what each outcome leaves behind; and that it takes the protocol's own steps |
| StorePrograms.Store.Observe | scripts/testing/qualify-clamav-rwx.py:62-70 | an observer verifies if and only if every recorded hash matches |
| StorePrograms.SelectedIsVerified | scripts/testing/qualify-clamav-rwx.py:62-70 | a selected generation matches its record in every part |
| StorePrograms.Store.Remove | scripts/testing/qualify-clamav-rwx.py:78-82 | a generation is removed if and only if it has all its parts |
| StorePrograms.Store.Prune | scripts/testing/qualify-clamav-rwx.py:73-83 | a pruner leaves the named generation as it is and, unless one of the others lacks a part, removes all of them, by the protocol's own steps |
| PowerLossSafety.StepKeeps | scripts/testing/qualify-clamav-rwx.py:39-59 | what each operation of a publisher knows about the disk, synced or not, is kept by the next |
| PowerLossSafety.PublicationSurvivesPowerLoss | scripts/testing/qualify-clamav-rwx.py:39-59 | a loss of power at any point, keeping any of the unsynced operations, leaves state.json naming the whole old or the whole new generation: the old up to the replacement, the new once finished |
| PowerLossSafety.DurableStoreSurvives | scripts/testing/qualify-clamav-rwx.py:39-59 | in particular a publication on a store with nothing unsynced |
| PowerLossProgress.PublisherFinishes | scripts/testing/qualify-clamav-rwx.py:39-59 | from every store with room for the generation a publisher can come to the moment between replacement and sync, and from there to its end |
| PowerLossProgress.ObstaclesStopIt | scripts/testing/qualify-clamav-rwx.py:39-59 | a publisher goes past no candidate of that name, no generation with something in it and no half-written record |
| PowerLossProgress.RecoversThen | scripts/testing/qualify-clamav-rwx.py:21-26 | after one unsynced change more a loss leaves what it could leave before, with that change or without it, and nothing else |
| PowerLossProgress.RecoversSynced | scripts/testing/qualify-clamav-rwx.py:21-26 | after a sync a loss leaves what programs see |
| PowerLossProgress.WritesCanBeLost | scripts/testing/qualify-clamav-rwx.py:45-48 | what a publisher has written and not synced can be anything after a loss, what it has synced is what it wrote |
| PowerLossPrune.PruningSurvivesPowerLoss | scripts/testing/qualify-clamav-rwx.py:73-83 | pruning a store that durably selects a generation never endangers it |
| PowerLossPrune.PruningFirstRecord | scripts/testing/qualify-clamav-rwx.py:73-83 | pruning a store whose first record is still pending leaves, after a loss, that record or none |
| PowerLossPrune.KilledPublisherLeavesTree | scripts/testing/qualify-clamav-rwx.py:39-59 | wherever a publisher stops, every generation is a directory of its own |
| PowerLossPrune.PruningTooEarly | scripts/testing/qualify-clamav-rwx.py:58-83 | between replacement and sync, a pruning and a loss of power can leave state.json naming a generation with a part missing |
| PowerLossPrune.PruningAfterKilledPublisher | scripts/testing/qualify-clamav-rwx.py:39-83 | pruning after a killed publisher is safe against every loss if and only if the store had never published or the publisher was not killed between the replacement and its sync |
| PowerLossProgress.PublishedStoreCanBreak | scripts/testing/qualify-clamav-rwx.py:39-83 | from every published store with room for another generation that moment is reached, and a pruning and a loss after it leave an inconsistent store |
| AdminQuery.Query.Restart | apps/admin-web/src/lib/useAdminQuery.ts:75-103 | the effect cancels the load it started last and starts one for the new inputs |
| AdminQuery.Query.Answer | apps/admin-web/src/lib/useAdminQuery.ts:79-97 | an answer settles with the tag of its own load, unless that was cancelled |
| AdminQuery.AnswerKeeps | apps/admin-web/src/lib/useAdminQuery.ts:79-111 | answers keep the query's invariant and never touch a fresh result |
| AdminQuery.ReplacedLoadsAreSilent | apps/admin-web/src/lib/useAdminQuery.ts:50-103 | only the load started last, for the inputs of now, is ever heard |
| AdminQuery.LastLoadIsHeard | apps/admin-web/src/lib/useAdminQuery.ts:79-97 | and that load is heard: its value or its failure is the result shown |
| HealthCenter.LatestResult.Run | apps/admin-web/src/lib/useLatestResult.ts:77-79 | a run is stamped with a new generation |
| HealthCenter.LatestResult.Answer | apps/admin-web/src/lib/useLatestResult.ts:80-86 | a result is applied, a failure reported, only for the newest run |
| HealthCenter.LatestResult.Discard | apps/admin-web/src/lib/useLatestResult.ts:88-91 | the value is dropped and every run in flight superseded |
| HealthCenter.Page.Reload | apps/admin-web/src/pages/HealthCenterPage.tsx:55-59 | a reload discards and restarts the query in one step |
| HealthCenter.Page.Refresh | apps/admin-web/src/pages/HealthCenterPage.tsx:67-74 | both refreshes are runs of the same latest result |
| HealthCenter.StepKeeps | apps/admin-web/src/pages/HealthCenterPage.tsx:45-74 | every event keeps the page's invariant and never lowers the oldest request that may still be shown |
| HealthCenter.ScreenNeverGoesBack | apps/admin-web/src/pages/HealthCenterPage.tsx:45-74 | over any run, the issue order of successive on-screen snapshots never goes backwards |
| HealthCenter.NothingFromBeforeReload | apps/admin-web/src/pages/HealthCenterPage.tsx:55-59 | after a reload, nothing requested before it is shown |
| HealthCenter.SupersededIsSilent | apps/admin-web/src/lib/useLatestResult.ts:15-31 | a refresh sent before another refresh, a reload or the unmount changes nothing on screen, whenever it is answered |
| HealthCenter.NewestRefreshIsApplied | apps/admin-web/src/lib/useLatestResult.ts:77-86 | over any run, the newest refresh's answer is applied, and is on screen wherever the full load has come |
| HealthCenter.ReloadIsShown | apps/admin-web/src/pages/HealthCenterPage.tsx:55-59 | over any run, a reload that nothing supersedes shows what its load brings |
| ConfigReview.ReviewFlow.StartReview | apps/admin-web/src/lib/useConfigReview.ts:100-118 | opening a review advances the generation and sends one preview that carries it |
| ConfigReview.ReviewFlow.Answer | apps/admin-web/src/lib/useConfigReview.ts:105-117 | a preview's answer is applied only in its own generation |
| ConfigReview.ReviewFlow.Confirm | apps/admin-web/src/lib/useConfigReview.ts:128-134 | confirming sends the snapshot on screen, once |
| ConfigReview.ReviewFlow.Complete | apps/admin-web/src/lib/useConfigReview.ts:135-142 | a finished write closes the review or shows its failure |
| ConfigReview.ReviewFlow.Cancel | apps/admin-web/src/lib/useConfigReview.ts:155-162 | cancelling retires the generation |
| ConfigReview.OneWriteAtATime | apps/admin-web/src/lib/useConfigReview.ts:128-143 | in every run at most one write is in flight, and applying says whether |
| ConfigReview.WritesAreReviewed | apps/admin-web/src/lib/useConfigReview.ts:75-86 | behind every write of every run: the confirmation of a review on screen, before it the server's plan for the same snapshot, before it the opening that froze the snapshot |
| ConfigReview.PreviewDecidesWrite | apps/admin-web/src/lib/useConfigReview.ts:180-210 | two snapshots are the same question to the preview if and only if they are the same write |
| ConfigReview.TrackingBreaksExactly | apps/admin-web/src/lib/useConfigReview.ts:100-143 | previewing stops telling the truth if and only if a write succeeds while a preview is outstanding |
| ConfigReview.PreviewingIsExact | apps/admin-web/src/lib/useConfigReview.ts:94-118 | if reviews are opened only while not busy, previewing holds exactly while a current preview is outstanding |
| ConfigReview.BusyNeverSticks | apps/admin-web/src/lib/useConfigReview.ts:145-163 | then, with every request answered, only a review on screen keeps the form busy, and cancelling frees it |
| ConfigReview.ReviewGoesThrough | apps/admin-web/src/lib/useConfigReview.ts:100-143 | from every form that is not busy: the plan is shown for what was frozen, just that is written, and the success closes the review, counts one reload and frees the form |
| ConfigReview.RefusalIsShown | apps/admin-web/src/lib/useConfigReview.ts:100-143 | a refused preview frees the form and a failed write leaves the review to be confirmed again, both with their message |
| ConfigReview.OverlappingReviewsStick | apps/admin-web/src/lib/useConfigReview.ts:100-143 | without that discipline a concrete run leaves the form busy for nothing |
| Diagnostics.IntegrationsPage.Abandon | apps/admin-web/src/lib/useDiagnosticRun.ts:67-71 | abandoning retires the generation, aborts and forgets the controller |
| Diagnostics.IntegrationsPage.Start | apps/admin-web/src/lib/useDiagnosticRun.ts:75-86 | a run starts only while no controller is held, and clears what was on screen |
| Diagnostics.IntegrationsPage.Settle | apps/admin-web/src/lib/useDiagnosticRun.ts:88-101 | a settlement writes state only in its own generation |
| Diagnostics.IntegrationsPage.Toggle | apps/admin-web/src/pages/IntegrationsPage.tsx:46-52 | toggling a card resets the run |
| Diagnostics.RunningIsExact | apps/admin-web/src/lib/useDiagnosticRun.ts:58-112 | while mounted: running, a held controller and exactly one current unsettled run go together, and every other unsettled run was aborted |
| Diagnostics.ReportsStandUnderTheirCard | apps/admin-web/src/pages/IntegrationsPage.tsx:77-88 | a diagnosis rendered under a card was made for that card's integration |
| Diagnostics.AbandonedIsSilent | apps/admin-web/src/lib/useDiagnosticRun.ts:21-42 | an abandoned run never writes state, whenever and however it settles |
| Diagnostics.TogglingFreesTheButton | apps/admin-web/src/lib/useDiagnosticRun.ts:49-55 | the card opened next starts empty and can run its own diagnostic at once |
| Diagnostics.DiagnosisIsShown | apps/admin-web/src/lib/useDiagnosticRun.ts:75-101 | a diagnosis that is not abandoned ends: its report stands under the card it was asked from, or its failure is shown |
| Diagnostics.TestNeedsConsent | apps/admin-web/src/pages/IntegrationsPage.tsx:92-99 | a test message is sent only when the dialog was open and is confirmed, which closes it |
| AdminSession.Provider.BootstrapAnswered | apps/admin-web/src/session/AdminSessionProvider.tsx:72-96 | an answer is applied unless cancelled or of an older generation |
| AdminSession.Provider.Reload | apps/admin-web/src/session/AdminSessionProvider.tsx:102-106 | a reload starts a new generation and a new load |
| AdminSession.Provider.Adopt | apps/admin-web/src/session/AdminSessionProvider.tsx:108-113 | an adoption starts a new generation and is in force at once |
| AdminSession.Provider.SignOutAnswered | apps/admin-web/src/session/AdminSessionProvider.tsx:115-137 | whatever the server answers, the session is dropped |
| AdminSession.OlderBootstrapIsSilent | apps/admin-web/src/session/AdminSessionProvider.tsx:44-64 | a bootstrap request sent before an adoption, a sign-out or a reload never changes status or identity |
| AdminSession.IdentityMatchesStatus | apps/admin-web/src/session/AdminSessionProvider.tsx:13-34 | signed in is shown only with an identity, refusals and failures only without |
| AdminSession.SignOutIsFinal | apps/admin-web/src/session/AdminSessionProvider.tsx:115-137 | after a sign-out with no later adoption or reload the session ends unauthenticated and stays so, whatever lands |
| AdminSession.AdoptionHoldsExactly | apps/admin-web/src/session/AdminSessionProvider.tsx:108-137 | an adopted session holds, with no later decision, if and only if no earlier sign-out is answered after it |
| AdminSession.ReloadDecides | apps/admin-web/src/session/AdminSessionProvider.tsx:13-106 | over any run, a reload that nothing supersedes decides the session: the identity loaded, or unauthenticated for 401, forbidden for 403, unavailable for 503 and an error for all else |
| UserSearch.Debounced.Change | apps/admin-web/src/lib/useDebouncedValue.ts:22-25 | a changed value restarts the timer |
| UserSearch.SearchSelect.TimerFires | apps/admin-web/src/components/AdminUserSearchSelect.tsx:89-107 | an expired timer settles the term, and a term that changed starts a load for it |
| UserSearch.SearchSelect.KeyDown | apps/admin-web/src/components/AdminUserSearchSelect.tsx:179-198 | each key's new state, and whom Enter hands over |
| UserSearch.SearchSelect.Click | apps/admin-web/src/components/AdminUserSearchSelect.tsx:232-241 | a click hands over the person clicked |
| UserSearch.StepKeeps | apps/admin-web/src/components/AdminUserSearchSelect.tsx:89-127 | every event keeps the timer, the query and the question of the active load in step |
| UserSearch.PickedAnswersTheTerm | apps/admin-web/src/components/AdminUserSearchSelect.tsx:89-127 | whoever is picked, by click or Enter, was in the server's answer to the trimmed term now in the box, which is long enough to be asked |
| UserSearch.ArrowsUndo | apps/admin-web/src/components/AdminUserSearchSelect.tsx:185-190 | the arrows undo each other around both ends of the list |
| UserSearch.ArrowsThenEnter | apps/admin-web/src/components/AdminUserSearchSelect.tsx:179-198 | after any number of arrows down or up, Enter picks the person that many rows on, around the ends |
| UserSearch.PointedAtIsPicked | apps/admin-web/src/components/AdminUserSearchSelect.tsx:227-241 | Enter picks the row that was pointed at, a click the row clicked |
| UserSearch.ListOpensAndCloses | apps/admin-web/src/components/AdminUserSearchSelect.tsx:116-184 | Escape closes the list and keeps what was found; typing opens it and offers nothing of the term before |
| UserSearch.TypedIsOffered | apps/admin-web/src/components/AdminUserSearchSelect.tsx:89-127 | a new term is searched for once it has settled, and its answer is what can be picked from, the first row first |
| ManifestReader.FindKey | scripts/ci/prod_blue_green_query.py:81-86 | the loop finds the first line that is the key at exactly this depth |
| ManifestReader.BlockEnd | scripts/ci/prod_blue_green_query.py:104-109 | the loop stops behind the last line of the block |
| ManifestReader.Document.Block | scripts/ci/prod_blue_green_query.py:48-57 | the loop over the path narrows the lines key by key |
| ManifestExact.BelowIsInside | scripts/ci/prod_blue_green_query.py:89-101 | everything printed below a key belongs to its block, sequences level with the key included |
| ManifestExact.HeadIsKey | scripts/ci/prod_blue_green_query.py:81-86 | an entry's line is found under its own key only, and only if it opens a block |
| ManifestExact.OneKey | scripts/ci/prod_blue_green_query.py:81-109 | one key of a path takes exactly the lines below its entry |
| ManifestExact.BlockIsExact | scripts/ci/prod_blue_green_query.py:48-57 | for every well-formed tree and every path through mapping keys the block is the printed lines of that subtree, and empty where no block is opened |

## Left out

Gateway auditor:

- YAML loading and printing of problems; `rule` values that are not strings. Dictionary keys are strings. A
  value on which the script would raise an exception counts as a reported problem.
- Characters: every character beyond ASCII that is not white space counts as a word character, where Python
  consults the Unicode tables. So the tokenizer reads at least the rules the script's reads, while a `Path(` right
  behind such a character that Python takes for no word character is captured by the script and not by the model.
  Lower-casing is that of ASCII; lone surrogates are not modelled.
- Show: a list or a mapping where a middleware reference is expected stands for itself as `[` or `{`, not as the text
  Python would print; such a reference names no definition either way unless one is called so.
- Rule hosts beyond ASCII are arbitrary predicates at the level of rules; the theorems about the audit assume that
  Traefik refuses such a host.
- Regular expressions: RE2's own choice among readings of a pattern is not modelled; a pattern matches if some
  reading of its text does, and RE2's reading is one of these. What classes, escapes and anchors other than `^`
  match is arbitrary.
- UsualPatternVerdict: is about one branch at the top level and characters other than `{`; a pattern with a top-level `|` is
  refused whatever it matches, and so is one with a group such as `([a]?b)`, whose class taken out leaves `(?`.
- VerdictExact: a conjunction of two paths, or a negation, may be disjoint without the script seeing it.
- The value of the rewrite's replacement is Traefik's to expand; ProbePath states what it makes of the three paths.
- Traefik beyond routing by rule, priority and entry point, and beyond path rewriting by middlewares.

Capacity preflight:

- Reading Deployments from manifest text (`workloads`, `_requests_in`, `_replicas_of`, `_max_surge_of`), the current
  slot's file and the command line: the run starts from parsed workloads, a parsed slot and quota figures.
- Opening and splitting files into lines: a file is a list of lines, or absent.
- Python's limit on converting long digit strings and Decimal's own exponent limits; counts are written in ASCII digits.
- ExitOkIsABound: requires distinct Deployment names, because the script looks each of them up in the slot by name.

Shared store:

- Symbolic links, permissions, file modes, and what the lock does when the filesystem does not honour it. SHA-256 and
  the JSON text of a record are parameters; what is dumped is assumed to load as it was.
- NoPartialPublication: is about processes that are killed, with the machine up; power loss is the second model.
- PublicationSurvivesPowerLoss: is about one publication from a store that durably selects a generation, or nothing.
- PublishedStoreCanBreak: asks for room: no candidate, generation or half-written record of that name stands in the way.

Admin console:

- Rendering, styling, labels, and React beyond state, effects with cleanup, and events. A promise's settlement with its
  callbacks is one event, and so are a reload and the effect it causes.
- The request and response shapes of the API; timers beyond their order (the refresh interval, the debounce delay).
- HealthCenter: the filter, the sorting and the row selection over the snapshot on screen.
- AdoptionHoldsExactly: makes no claim that an adoption made while a sign-out is pending survives; it says when it does not.

Manifest reader:

- The field readers over a block (`nested`, `mapping`, `values`) and the queries built from them: they take the first hit
  at any depth, so only `block` is exact in general.
- BlockIsExact: keys need no quotes, scalars are on one line, and a path may end in a sequence but not pass through one.

Not modelled at all: the other workflow and convention checkers, the web client, the Go services, migrations and deploy scripts.
