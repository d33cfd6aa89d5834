# comin, modelled and verified in Dafny

comin is a GitOps agent: it fetches commits from several remotes, selects one,
evaluates and builds it, asks for confirmations, deploys it, and keeps a bounded
history of deployments. This project models the logic of these components and
proves what they guarantee, for every input, every interleaving and every run.

`dafny verify dfyconfig.toml` checks the whole project.

## What is modelled

| files | component |
|---|---|
| `Common`, `Text` | shared types; splitting, joining and trimming strings |
| `Deployments`, `Retention`, `RetentionLaws`, `RetentionStability`, `RetentionSurvival`, `RetentionUpdates`, `RetentionMeaning` | the retention pass, its declarative specification, its idempotence, which deployments survive it, what an update of a deployment does to it, and what it leaves in terms of the fields of deployments, those it makes up included |
| `SwitchInhibitors`, `DeploymentStore`, `DeploymentRunner` | the deployment store and what the runner does with it |
| `CommitGraph`, `Repository`, `RepositoryLaws`, `UpdateMeaning` | ancestor search, commit selection over several remotes, its runs and its fixpoint, and what each field of the status means |
| `AllowedSigners`, `SignersFile`, `Patterns` | the allowed-signers file, against a printer and against the matching of pattern lists |
| `Confirmer`, `Deployer`, `Fetcher` | three event loops, over all their histories |
| `Generations`, `Builder` | the generation store and the builder on top of it |
| `Manager`, `Provenance`, `PipelineRuns`, `MachineId`, `BuildConfirmation`, `GenerationHistory`, `BuilderHistory`, `Composition`, `Delivery` | the manager loop that composes the others: where deployed generations come from, which ones are checked against the host and confirmed before they are built, what the records of a generation and the flags of the builder tell about the past, that the confirmers and the deployer run in it as they run alone, and that a verified commit gets through |
| `Agent`, `AgentDelivery` | repository, fetcher, broker and pipeline together: deployed commits are signed, and signed commits get to the deployer |
| `Profiles` | the cleanup of system profile links |

Components that change state step by step are classes whose methods are proved
against a specification function; the laws are lemmas about that function. Each
`select` case, each section under a mutex and each public builder method is one
step. Clocks, fresh identifiers, git refs, signature checks, key parsing, the Nix
store and external commands are parameters that can take any value. Sorting is
known only to be a sorting permutation, because the sort in use is not stable.

## Where the code does less than one might expect

For each of these there is a lemma with the failing situation and one with the
exact condition.

- A deployment in progress that is not the newest can be dropped by retention, and
  the runner then fails to start it (`ClockBackwardsExample`; exactly when:
  `UnfinishedSurvivesIff`, `RunDeployment`).
- After an update of a deployment the "any" list, and for a done deployment the
  "successful" list, can be one short of its capacity although there are enough
  deployments to fill it, which can cost one of them its place in the history
  (`UpdatedListExample`; exactly when: `UpdatedListIsOneShort`, and with ties
  between creation times, up to the choice of the sort, `UpdatePassIsPlain`).
- `docs/design.md` allows testing commits only on top of a main commit; when no
  main commit is known and no main head is usable, a testing head is selected
  anyway (`TestingWithoutMainExample`; exactly when: `TestingWithoutMainIff`).
- The deployer documents that a generation equal to the last deployment is
  skipped; it compares with the deployment before the last (`RepeatIsAccepted`;
  exactly when: `RepeatIsSkippedIff`).
- A submission accepted while the runner is awake leaves a spare wake-up token;
  the pass it causes takes a nil generation (`SubmittingTwiceCrashes`; exactly
  when: `TakeYieldsLastAccepted`, `SafeStep`).
- A resume nobody waits for opens the gate of a later suspension
  (`StaleResumePasses`; exactly when: `TokenIsUnusedResume`,
  `SuspensionIsPassedIff`).
- Evaluating a new generation while a task runs fails, because ending that task
  collects the new generation; the builder then reads as evaluating
  (`RefusedEvalExample`, and from any state `RefusedEvalReadsAsEvaluating`; exactly
  when: `NewEvalSucceedsIff`).
- The machine identifier of a generation is not compared with that of the host,
  and its build is not confirmed, when its storepath exists already, nor when a
  resume of the builder builds it (`ExistingStorepathExample`, `ResumeExample`, and
  from any state `ExistingStorepathSkipsMachineId`, `ResumeSkipsMachineId`); these
  are the only two ways past the comparison (`SentGenerationsMatch`) and past the
  build confirmer (`SentGenerationsAreConfirmed`).
- The link designated by the default profile is protected only when the default
  profile is an absolute link (`RelativeDefaultExample`; exactly when:
  `RelativeDefaultIsKeptIff`).

## Model

| member | source | states |
|---|---|---|
| `Deployments.SortNewestFirst` | internal/store/deployment.go:255-259 | the result is a permutation of the input, newest first; nothing is known about ties |
| `Retention.FindBooted` | internal/store/deployment.go:261-288 | finds a newest done boot or switch deployment of the booted storepath, minting a dummy exactly when there is none; what the dummy is: `PassFindsBooted` |
| `Retention.FindSwitched` | internal/store/deployment.go:290-319 | finds a newest done deployment of the running storepath, minting a dummy exactly when there is none; what the dummy is: `PassFindsSwitched` |
| `Retention.SelectBootEntries` | internal/store/deployment.go:321-340 | the loop with its break and continues picks what the capacity and storepath rule picks, and merges it by UUID |
| `Retention.SelectSuccessful` | internal/store/deployment.go:342-358 | the loop picks the first done deployments up to the capacity and merges them by UUID |
| `Retention.SelectAny` | internal/store/deployment.go:360-373 | the loop picks the first deployments up to the capacity and merges them by UUID |
| `Retention.Retain` | internal/store/deployment.go:244-378 | the five phases yield a retention of the input, for any list and any capacities |
| `RetentionLaws.PickBootEntryIsNewest` | internal/store/deployment.go:321-340 | boot entries hold the newest deployment of each of the newest K storepaths, one per storepath |
| `RetentionLaws.PickSuccessfulIsNewest` | internal/store/deployment.go:342-358 | nothing successful is left out unless S are chosen, none of them older |
| `RetentionLaws.PickAnyIsNewest` | internal/store/deployment.go:360-373 | nothing is left out unless A are chosen, none of them older |
| `RetentionLaws.KeptMembers` | internal/store/deployment.go:244-378 | what is kept is exactly booted, switched and the three lists, also when a deployment is visited twice |
| `RetentionLaws.RetentionIsDeclarative` | internal/store/deployment.go:244-378 | on UUID-distinct lists retention meets a specification by quantifiers only: newest per storepath, newest done, newest of any status, each list UUID-distinct and newest first, and nothing else kept |
| `RetentionLaws.KeptIsWellFormed` | internal/store/deployment.go:75-111 | in every pass the kept list is UUID-unique, sorted, at most 2 + K + S + A long, and every UUID handed out resolves in it |
| `RetentionStability.SecondPassMintsNothing` | internal/store/deployment.go:272-319 | a pass over the result of a pass mints no dummy |
| `RetentionStability.RetentionIsIdempotent` | internal/store/deployment.go:261-378 | with distinct creation times in the result, a second pass returns the same result and the same lists |
| `RetentionStability.SecondPass` | internal/store/store_test.go:92-101 | with any ties, a pass over the result of a pass fills three lists of the same lengths from what was kept, and drops nothing while the "any" list is not full |
| `RetentionStability.RetainTwice` | internal/store/store_test.go:81-101 | two passes in a row, with any ties: the second mints nothing, fills lists of the same lengths, keeps nothing new, and drops nothing while the "any" list is not full; the outcome is the same when kept creation times are distinct |
| `RetentionSurvival.NewestSurvives` | internal/store/deployment.go:360-378 | a deployment newer than all others survives a pass, on top |
| `RetentionSurvival.UnfinishedSurvivesIff` | internal/store/deployment.go:360-373 | an unfinished deployment that shares its creation time with no other is kept exactly while fewer than A deployments are newer, and with it all of those; also in the passes that visit it twice after an update |
| `RetentionSurvival.ClockBackwardsDropsNew` | internal/store/deployment.go:129-152 | a new deployment dated before the only other one is dropped by the pass it enters, for A = 1 |
| `RetentionSurvival.ClockBackwardsExample` | internal/store/deployment.go:129-152 | a concrete history in which this happens |
| `RetentionSurvival.TiedPassDrops` | internal/store/deployment.go:255-259 | between two deployments of the same age the sort decides which one a full "any" list names, and a second pass can drop what the first kept |
| `RetentionUpdates.UpdatePassIsPlain` | internal/store/deployment.go:213-253 | the pass that follows an update of any deployment, ties included, is a plain pass over the updated history, with an "any" and a "successful" capacity that are lowered by one at most, and when |
| `RetentionUpdates.UnrivalledUpdateIsPlain` | internal/store/deployment.go:213-253 | absent ties a capacity is lowered exactly when the updated deployment counts for the list and two places behind the newer ones are within the capacity |
| `RetentionUpdates.UpdatedListIsOneShort` | internal/store/deployment.go:342-373 | after an update of any deployment, absent ties: the exact length of each list; the "any" list, and for a done deployment the "successful" one, is one short exactly when two places behind the newer deployments are within the capacity and the capacity within the number of deployments; the outcome meets the declarative specification for the lowered capacities |
| `RetentionUpdates.UpdatedListExample` | internal/store/deployment.go:342-373 | a concrete history of three: with capacities of three both lists name two, and the third deployment is dropped |
| `RetentionMeaning.PassFindsBooted` | internal/store/deployment.go:261-288 | in every pass the booted system is the newest done boot or switch deployment of its storepath; when there is none, a made up one: not in the list before, done, dated at the epoch, operation boot |
| `RetentionMeaning.PassFindsSwitched` | internal/store/deployment.go:290-319 | in every pass the running system is the newest done deployment of its storepath, the booted one included; when there is none, a made up one with operation switch |
| `RetentionMeaning.PassKeeps` | internal/store/deployment.go:244-378 | a pass over a UUID-distinct list keeps what a specification by fields tells, stated without the selection rules: the two running systems, the newest done entry of each of the newest K storepaths, the newest S done ones, the newest A ones, and nothing else |
| `RetentionMeaning.PassAddsOnlySystems` | internal/store/deployment.go:261-319 | every pass, over any list, keeps nothing that was not there but the two running systems |
| `RetentionMeaning.NewAreRunningSystems` | internal/store/deployment.go:272-319 | whatever is kept without having been there is done, dated at the epoch, and is the booted system with operation boot or the running one with operation switch, which no deployment described |
| `RetentionMeaning.NewIsABootEntry` | internal/store/deployment.go:306-340 | a made up deployment is among the boot entries whenever fewer than K other storepaths have done boot entries, and is not when K have and all are dated after the epoch |
| `RetentionMeaning.LoadKeeps` | internal/store/store.go:126-158 | loading publishes what is to be kept of the loaded history by the same specification: the deployments it seeds are made up on the same terms |
| `SwitchInhibitors.CompareSwitchInhibitors` | internal/store/deployment.go:386-406 | the difference holds exactly the keys declared by both systems with different values, with both values |
| `SwitchInhibitors.ComputeOperation` | internal/store/deployment.go:408-421 | conflicting inhibitors turn test into null and switch into boot; nothing else changes the operation |
| `SwitchInhibitors.InhibitedIff` | internal/store/deployment.go:386-406 | two systems inhibit a switch exactly when no set of inhibitors agrees with both |
| `SwitchInhibitors.DowngradedOnlyLosesActivation` | internal/store/deployment.go:408-421 | a conflict costs an operation its effect on the running system and nothing else |
| `DeploymentStore.Store.New` | internal/store/store.go:35-69 | a store is refused exactly when a capacity is below one or the directory of the garbage collector roots cannot be created |
| `DeploymentStore.Store.UpdateDeployments` | internal/store/deployment.go:75-111 | the store publishes the outcome of a retention pass, and the retained invariant holds whatever the history was |
| `DeploymentStore.Store.NewDeployment` | internal/store/deployment.go:129-152 | the new deployment enters a pass; dated after all others, it ends on top; sharing its date with no other, it is in the history afterwards exactly when fewer than A deployments are newer |
| `DeploymentStore.Store.DeploymentGet` | internal/store/deployment.go:154-161 | finds the first deployment with the UUID, fails exactly when there is none |
| `DeploymentStore.Store.DeploymentStarted` | internal/store/deployment.go:203-216 | fails exactly when the UUID is gone and then changes nothing; otherwise a pass over the history with the deployment running; a deployment on top stays on top; absent ties the deployment survives exactly when fewer than A are newer |
| `DeploymentStore.Store.DeploymentFinished` | internal/store/deployment.go:218-238 | the same, with the final status, end and profile path; the survival condition is that of a failed deployment |
| `DeploymentStore.PublishedLengths` | internal/store/deployment.go:203-238 | the lengths of the lists that the store publishes after an update, absent ties |
| `DeploymentStore.Store.LastDeployment` | internal/store/store.go:83-88 | there is a last deployment exactly from two on; in a retained store it is a newest one, and the one that the scan for the latest finds |
| `DeploymentStore.Store.GetDeploymentLatest` | internal/store/deployment.go:180-189 | the scan over the history, which `LatestIs` describes |
| `DeploymentStore.LatestIs` | internal/store/deployment.go:180-189 | on any list the scan finds the newest ended deployment when it is newer than the first one, and the first one otherwise; of equally new ones the first |
| `DeploymentStore.LatestIsFirst` | internal/store/deployment.go:180-189 | on a history sorted newest first the scan finds the first entry, of maximal creation time |
| `DeploymentStore.LastIsLatest` | internal/store/store.go:83-88 | in a retained store with at least two deployments both queries return the same newest entry |
| `DeploymentStore.Store.GetDeploymentProfilePaths` | internal/store/deployment.go:191-201 | exactly the non-empty profile paths of the history |
| `DeploymentStore.Store.Load` | internal/store/store.go:97-164 | from any list: seeded with dummies, one pass, every published UUID resolves and the booted system is described; the running system is described when the UUIDs of the list are distinct |
| `DeploymentRunner.StartDeployment` | internal/deployer/deployer.go:232-243 | absent ties, a deployment is marked running exactly when fewer than A deployments of the history are newer, and is then still listed; dated after all others it ends on top, with all its fields |
| `DeploymentRunner.RunDeployment` | internal/deployer/deployer.go:232-264 | absent ties, the runner completes exactly when fewer than A deployments of the old history are newer, and otherwise already fails to start; dated after all others the deployment ends on top, done or failed as it turned out, ended, and with its profile path |
| `DeploymentRunner.RunAll` | internal/deployer/deployer.go:212-279 | over any number of deployments with a clock that moves forward no error path is ever taken |
| `CommitGraph.IsAncestor` | internal/repository/git.go:133-152 | the log walk finds base exactly when it is a proper ancestor of top, and fails exactly when top is missing |
| `Repository.GetHeadFromRemoteAndBranch` | internal/repository/git.go:44-80 | yields the head exactly when it exists and is the main commit or on top of it |
| `Repository.Repository.Fetch` | internal/repository/repository.go:98-119 | records the fetch outcome of the requested remotes and changes nothing else; over runs: `FetchErrorIsThatOfLastFetch` |
| `Repository.Repository.WalkMain` | internal/repository/repository.go:121-172 | the main loop with its break yields the status of the documented choice of the main commit |
| `Repository.Repository.WalkTesting` | internal/repository/repository.go:174-212 | the testing loop yields the documented choice on top of the chosen main commit |
| `Repository.Repository.Update` | internal/repository/repository.go:121-235 | the whole status after an update is the one that `MainAfterUpdate`, `SelectionAfterUpdate`, `SignedAfterUpdate` and `RecordsAfterUpdate` describe field by field |
| `RepositoryLaws.MainIsChosenAsDocumented` | docs/design.md:17-20 | the first main head strictly on top of the last main commit, else the first equal one |
| `RepositoryLaws.CommitIsChosenAsDocumented` | docs/design.md:21-23 | the first testing head strictly on top of the chosen main commit, else that main commit |
| `RepositoryLaws.SelectionIsAboveMain` | internal/repository/repository.go:187-211 | the selected commit is the main commit or above it, a testing commit strictly |
| `RepositoryLaws.TestingWithoutMainIff` | internal/repository/repository.go:174-212 | a testing commit is selected without a main commit exactly when no main commit is known, no main head usable and some testing head exists |
| `RepositoryLaws.TestingWithoutMainExample` | internal/repository/repository.go:174-212 | a concrete repository in which this happens |
| `RepositoryLaws.MainOnlyAdvances` | internal/repository/repository.go:98-235 | over every run of fetches and updates with any ref changes, main only moves to descendants and the selected commit stays at main or above |
| `RepositoryLaws.AboveShrinks` | internal/repository/repository.go:128-172 | in an acyclic graph, moving main strictly shrinks the set of remotes above it |
| `RepositoryLaws.UpdatesConverge` | internal/repository/repository.go:128-172 | with frozen refs, updates move main at most once per remote and then reach a fixpoint with no usable main head above it |
| `RepositoryLaws.SettledSelection` | internal/repository/repository.go:121-235 | with main settled, one update settles the whole status: another changes nothing, branch records included |
| `RepositoryLaws.StatusConverges` | internal/repository/repository.go:121-235 | with frozen refs, after one update more than there are remotes no update changes the status |
| `RepositoryLaws.VerifiedIsSigned` | internal/repository/repository.go:214-233 | with keys configured, a status that reads as verified selects a commit the check accepted |
| `UpdateMeaning.MainAfterUpdate` | internal/repository/repository.go:128-172 | main moves to the first main head strictly on top of it, with the remote and branch it came from, and otherwise stays; also when no main commit is known |
| `UpdateMeaning.SelectionAfterUpdate` | internal/repository/repository.go:128-216 | the first testing head strictly on top of the new main commit, with its remote and branch; else the main commit from the remote that moved it or the first that has it; else the selection stays |
| `UpdateMeaning.SignedAfterUpdate` | internal/repository/repository.go:214-233 | with keys the status reads signed exactly when this update chose a commit and that commit is accepted; without keys no signature is asked for |
| `UpdateMeaning.RecordsAfterUpdate` | internal/repository/repository.go:128-212 | which branches are looked at, and what the record of each tells afterwards: the head, the main commit it was compared with, the error; everything else stays |
| `UpdateMeaning.ChoiceIsSelected` | docs/design.md:17-23 | an update selects the documented choice, stated by refs and reachability alone, and keeps the old one when there is none |
| `UpdateMeaning.SignedIff` | internal/repository/repository.go:218-233 | with keys the status reads signed exactly when there is a documented choice and its signature is accepted |
| `UpdateMeaning.FetchErrorIsThatOfLastFetch` | internal/repository/repository.go:98-119 | over every run of fetches and updates a remote is marked as failing exactly when its last fetch failed |
| `AllowedSigners.SplitOptionTokens` | internal/repository/git.go:460-486 | the tokens join back to the input; it fails exactly on an open quote or an empty unquoted segment, and exactly when no tokenisation exists |
| `AllowedSigners.TokensAreUnique` | internal/repository/git.go:460-486 | a string has at most one list of tokens |
| `AllowedSigners.NamespacesFromOptions` | internal/repository/git.go:426-458 | a non-empty field is accepted with namespaces ns exactly when it is the printed form of the non-empty list ns |
| `AllowedSigners.OptionNamespaces` | internal/repository/git.go:437-453 | the value parser is the inverse of the printer |
| `AllowedSigners.AllowsNamespace` | internal/repository/git.go:499-509 | allowed exactly when unrestricted, listed, or listed as a star |
| `SignersFile.SplitToken` | internal/repository/git.go:393-408 | splits at the first white space outside quotes, fails exactly when there is none and a quote is open |
| `SignersFile.FirstTokenIff` | internal/repository/git.go:393-408 | the first token ends at the first white space outside quotes, or at the end of a line whose quotes are closed; otherwise there is none |
| `SignersFile.FieldsAreLossless` | internal/repository/git.go:376-414 | options, white space and key make up the rest of the line; the key is not empty, and options end outside a quotation with white space behind them |
| `SignersFile.FieldsAreRead` | internal/repository/git.go:376-391 | from printed fields, with or without options, exactly the options and the key are separated |
| `SignersFile.PrincipalFromPatternList` | internal/repository/git.go:416-424 | the first principal, refused exactly when some pattern is unsupported |
| `SignersFile.ParseLine` | internal/repository/git.go:327-360 | a line yields the signer its fields describe, or an error |
| `SignersFile.ParseAllowedSigners` | internal/repository/git.go:320-366 | a file yields the signers of its significant lines in order, refused when one cannot be read or there is none |
| `SignersFile.EntryRoundTrip` | internal/repository/git.go:320-486 | reading a printed entry, with or without options, gives back its principal, namespaces and key |
| `SignersFile.FileRoundTrip` | internal/repository/git.go:320-366 | reading a file of printed entries, with or without options, gives back all of them in order |
| `SignersFile.UnrestrictedHasNoOptions` | internal/repository/git.go:426-458 | an unrestricted signer comes from a line without options |
| `SignersFile.NoOptionsIff` | internal/repository/git.go:376-414 | a line has no options exactly when what follows the principals starts like an RSA, DSA, Ed25519, ECDSA or hardware key |
| `SignersFile.AcceptedLineIs` | internal/repository/git.go:327-360 | every line that is read consists of supported principals, printed namespaces if it has options, and a key, and the signer is what they say |
| `SignersFile.RemarksAreSkipped` | internal/repository/git.go:322-326 | blank lines and comments anywhere in a file make no difference |
| `Patterns.SupportedIff` | internal/repository/git.go:495-497 | a pattern is supported exactly when it is the star alone, or a name without white space at its ends and without a character that has a meaning of its own |
| `Patterns.SupportedMatches` | internal/repository/git.go:495-497 | in the way OpenSSH matches patterns, a supported one matches everything or only itself |
| `Patterns.NamespacesPermit` | internal/repository/git.go:499-509 | for the namespaces of any line that is read, looking for the name or the star decides what the pattern list decides |
| `Patterns.ExampleLine` | internal/repository/git.go:320-366 | a concrete line with a principal, an option and a key is read |
| `Confirmer.Confirmer.Handle` | internal/manager/confirmer.go:104-162 | one turn of the loop changes the state and emits as the step function says |
| `Confirmer.StateIsHistory` | internal/manager/confirmer.go:104-162 | in every mode the state is exactly the last submission since the last emission, the confirmation that stands and the timer that runs; in manual mode the last confirmation not cancelled is the one that stands |
| `Confirmer.NotifiedIff` | internal/manager/confirmer.go:113-160 | the confirmer has notified exactly when something was emitted and nothing submitted since |
| `Confirmer.ManualEmitsIff` | internal/manager/confirmer.go:113-160 | in manual mode a uuid is emitted exactly when it is the last submitted and the last confirmed since the last emission, with no cancel after |
| `Confirmer.EmitsLastSubmitted` | internal/manager/confirmer.go:113-160 | in every mode only the last submitted uuid is emitted: a replaced submission is not |
| `Confirmer.AutoEmitsBecause` | internal/manager/confirmer.go:123-160 | in auto mode an emission is due to a running timer or to an uncancelled confirmation |
| `Confirmer.AutoEmitsIff` | internal/manager/confirmer.go:113-160 | in auto mode a uuid is emitted exactly when it is the last submitted since the last emission and a running timer ticks or it is the confirmation that stands, early ones included |
| `Confirmer.CancelHolds` | internal/manager/confirmer.go:138-160 | in auto mode nothing is emitted after a cancel until a new submission or a confirmation of the pending uuid |
| `Confirmer.EmissionsAreSubmissions` | internal/manager/confirmer.go:104-162 | emissions are a subsequence of submissions: each answers a submission of its own, in order |
| `Confirmer.WithoutEmitsAll` | internal/manager/confirmer.go:120-122 | without confirmation, emissions are the non-empty submissions |
| `Deployer.Deployer.Submit` | internal/deployer/deployer.go:188-210 | an accepted submission replaces the pending one and leaves one token |
| `Deployer.Deployer.Resume` | internal/deployer/deployer.go:156-168 | lifts the suspension, as `SuspendedAsAsked` says over runs, and leaves one resume token |
| `Deployer.Deployer.RunnerStep` | internal/deployer/deployer.go:212-279 | each step of the runner loop, blocked exactly at the two channels |
| `Deployer.NothingIsLost` | internal/deployer/deployer.go:192-230 | in every interleaving what is pending is the last submission accepted since the last take and has a token or an awake runner; a token is there exactly when one was accepted since the last wake-up |
| `Deployer.TakeYieldsLastAccepted` | internal/deployer/deployer.go:226-231 | a take yields the last accepted submission, and a nil generation exactly when none was accepted since the take before |
| `Deployer.SafeStep` | internal/deployer/deployer.go:218-231 | without a spare token no step crashes, and a step creates one exactly when it takes with the token set |
| `Deployer.CrashNeedsSubmissionWhileAwake` | internal/deployer/deployer.go:218-231 | runs in which nothing is accepted while the runner is awake never crash |
| `Deployer.SubmissionWhileAwakeLeavesToken` | internal/deployer/deployer.go:218-231 | a submission while the runner is awake leaves a spare token behind the deployment |
| `Deployer.SpareTokenCrashes` | internal/deployer/deployer.go:218-231 | with a spare token the next pass dereferences a nil generation |
| `Deployer.SubmittingTwiceCrashes` | internal/deployer/deployer.go:192-231 | a run from the initial state in which a second submission before the first take leads to the nil generation |
| `Deployer.PassesAreBounded` | internal/deployer/deployer.go:156-168 | the runner passes the suspension gate at most once per Resume |
| `Deployer.TokenIsUnusedResume` | internal/deployer/deployer.go:156-168 | in every run the token that opens the gate is there exactly when a Resume came after the last pass |
| `Deployer.SuspensionIsPassedIff` | internal/deployer/deployer.go:148-168 | after a Suspend and without a new Resume, a runner at the gate can pass exactly when a Resume from before the suspension was never used |
| `Deployer.StaleResumePasses` | internal/deployer/deployer.go:220-223 | a resume nobody waited for opens a later gate |
| `Deployer.SuspendedAsAsked` | internal/deployer/deployer.go:136-168 | over every run the deployer is suspended exactly when the last Suspend or Resume is a Suspend, or there is none and it started suspended |
| `Deployer.WokenRunnerPassesIff` | internal/deployer/deployer.go:218-224 | a woken runner goes to the gate exactly then, and passes at once when the last one is a Resume |
| `Deployer.PreviousIsBeforeLast` | internal/deployer/deployer.go:235-239 | over every run submissions are compared with the deployment before the last |
| `Deployer.RepeatIsSkippedIff` | internal/deployer/deployer.go:170-192 | an unforced submission is skipped exactly when the deployment before the last is the submitted one; a repeat of the last exactly when the last two are the same |
| `Deployer.RepeatIsAccepted` | internal/deployer/deployer.go:188-239 | a run from the initial state after which a repeat of the last deployment is accepted, whenever the deployment before the start was another one |
| `Generations.Store.GenerationsGC` | internal/store/generation.go:172-187 | keeps exactly the generations last in something, in order |
| `Generations.Store.GenerationEvalStarted` | internal/store/generation.go:189-204 | the transition and the collection, or an error that changes nothing; what the record then tells: `EvaluationIsRecorded` |
| `Generations.Store.GenerationEvalFinished` | internal/store/generation.go:206-228 | the transition and the collection, or an error that changes nothing; what the record then tells: `EvaluationIsRecorded` |
| `Generations.Store.GenerationBuildStart` | internal/store/generation.go:230-245 | the transition and the collection, or an error that changes nothing; what the record then tells: `BuildIsRecorded` |
| `Generations.Store.GenerationBuildFinished` | internal/store/generation.go:247-279 | the transition and the collection, or an error that changes nothing; what the record then tells: `BuildIsRecorded` |
| `Generations.Store.GenerationGet` | internal/store/generation.go:281-291 | the first generation with the UUID |
| `Generations.CollectionSparesFour` | internal/store/generation.go:172-187 | at most four generations remain and every last-started or last-finished one does, unchanged |
| `Generations.SparedAreInOrder` | internal/store/generation.go:172-187 | the generations that remain are in the order in which they were listed |
| `Generations.TransitionKeeps` | internal/store/generation.go:189-279 | every transition keeps the store valid, leaves at most four generations and changes only the one concerned |
| `Builder.Builder.OnEvalEnd` | internal/builder/builder.go:228-267 | the end of an evaluation, with the already-built path |
| `Builder.Builder.OnBuildEnd` | internal/builder/builder.go:368-388 | the end of a build |
| `Builder.Builder.Stop` | internal/builder/builder.go:135-164 | ends the running tasks |
| `Builder.Builder.Eval` | internal/builder/builder.go:194-269 | stops, then starts the evaluation or fails when the generation is gone |
| `Builder.Builder.Build` | internal/builder/builder.go:330-390 | starts a build exactly under its five conditions |
| `Builder.Builder.SubmitBuild` | internal/builder/builder.go:313-328 | builds unless suspended |
| `Builder.Builder.Suspend` | internal/builder/builder.go:271-283 | stops the build and suspends, or fails when suspended already |
| `Builder.Builder.Resume` | internal/builder/builder.go:285-311 | resumes and builds the managed generation when it has to be built |
| `Builder.StepKeeps` | internal/builder/builder.go:201-390 | every step keeps: at most one task, on the managed generation, which is in the store |
| `Builder.StoppedReadsIdle` | internal/builder/builder.go:135-164 | after a stop, from any state, nothing runs and the builder reads as idle |
| `Builder.OneTaskAtATime` | internal/builder/builder.go:1-9 | over every run at most one evaluator or buildator runs and the managed generation resolves |
| `Builder.NewEvalSucceedsIff` | internal/builder/builder.go:204-211 | evaluating a new generation succeeds exactly when no task is running |
| `Builder.RefusedEvalReadsAsEvaluating` | internal/builder/builder.go:204-211 | otherwise the builder reads as evaluating with no evaluator |
| `PipelineRuns.RefusedEvalExample` | internal/builder/builder.go:204-211 | from every initial state, two verified fetches in a row lead there |
| `Fetcher.ComputeUnion` | internal/fetcher/git.go:99-107 | the loop computes the union that UnionIs describes |
| `Fetcher.UnionIs` | internal/fetcher/git.go:99-107 | the union has the members of both lists and no duplicates |
| `Fetcher.UnionIsInOrder` | internal/fetcher/git.go:99-107 | the union starts with the first list and adds names in the order in which the second first names them |
| `Fetcher.GitFetcher.Handle` | internal/fetcher/git.go:66-97 | one turn of the loop, with the published updated and verified flags, which `UpdatedIff` and `VerifiedIff` describe |
| `Fetcher.NothingIsForgotten` | internal/fetcher/git.go:66-97 | over every run the pending names are those submitted since the last start, without duplicates, only while a fetch runs; the stored commit is that of the last report |
| `Fetcher.FetchTakesAllWaiting` | internal/fetcher/git.go:90-94 | a fetch that starts takes every name submitted since the start before |
| `Fetcher.OneFetchAtATime` | internal/fetcher/git.go:71-95 | over every run a fetch begins only after all that began before have reported, and no name waits while none runs |
| `Fetcher.UpdatedIff` | internal/fetcher/git.go:76-84 | over every run a report counts as an update exactly when it names another commit than the last report, or the same from the other kind of branch |
| `Fetcher.VerifiedIff` | internal/fetcher/git.go:86-88 | the report of an update is verified exactly when no keys are configured or the documented choice has an accepted signature |
| `Fetcher.ReportNamesTheChoice` | internal/fetcher/git.go:76-88 | the report names the documented choice and whether it is a testing head |
| `Fetcher.VerifiedNamesASignedCommit` | internal/fetcher/git.go:86-88 | with keys configured a verified event names a commit the signature check accepted |
| `Manager.Manager.OnFetched` | internal/manager/manager.go:166-182 | only an updated and verified fetch creates and evaluates a generation |
| `Manager.Manager.OnEvaluationDone` | internal/manager/manager.go:183-197 | skips missing, failed and foreign generations, else submits the build |
| `Manager.Manager.OnBuildConfirmed` | internal/manager/manager.go:198-199 | hands the confirmed generation to the builder |
| `Manager.Manager.OnBuildDone` | internal/manager/manager.go:201-216 | submits a build without error that is not deployed already |
| `Manager.Manager.OnDeployConfirmed` | internal/manager/manager.go:217-226 | hands the confirmed generation to the deployer, unforced, as `ConfirmedIsSubmitted` says in terms of the deployer |
| `Provenance.StepKeeps` | internal/manager/manager.go:162-230 | every step of the composed system keeps the provenance invariant |
| `Provenance.HistoryIsTrue` | internal/manager/manager.go:162-230 | what the history records did happen at an earlier step of the run |
| `Provenance.EmissionFollowsSubmission` | internal/manager/manager.go:201-226 | in every run what the deploy confirmer emits was submitted to it by the loop, at that step or before |
| `Provenance.HandedGenerationsAreSound` | internal/manager/manager.go:162-230 | in every run each generation the loop hands to the deployer was created for an updated and verified fetch, from its commit, is recorded built without error, and was submitted to the deploy confirmer and then emitted by it |
| `MachineId.StepClears` | internal/manager/manager.go:162-230 | every step keeps: whatever is past the comparison fits the host or was let through by one of the two bypasses |
| `MachineId.SentGenerationsMatch` | internal/manager/manager.go:183-216 | in every run a generation sent to the deploy confirmer asks for no machine or for the host, unless its evaluation ended with its storepath in the Nix store or a Resume started its build |
| `MachineId.HandedGenerationsMatch` | internal/manager/manager.go:217-226 | the same of every generation handed to the deployer |
| `MachineId.ExistingStorepathSkipsMachineId` | internal/builder/builder.go:249-260 | a generation whose storepath exists reaches the deploy confirmer whatever machine identifier it asks for |
| `MachineId.ResumeSkipsMachineId` | internal/builder/builder.go:285-311 | a generation that a Resume builds reaches the deploy confirmer whatever machine identifier it asks for |
| `MachineId.ExistingStorepathExample` | internal/builder/builder.go:249-260 | from every initial state a run sends such a foreign generation |
| `MachineId.ResumeExample` | internal/builder/builder.go:285-311 | from every initial state a run sends a foreign generation that the loop had refused |
| `BuildConfirmation.StepStaysIn` | internal/manager/manager.go:162-230 | every step keeps: whatever is past the build confirmer was emitted by it or let through by one of the two bypasses |
| `BuildConfirmation.SentGenerationsAreConfirmed` | internal/manager/manager.go:198-216 | in every run a generation sent to the deploy confirmer was emitted by the build confirmer, unless its evaluation ended with its storepath in the Nix store or a Resume started its build |
| `BuildConfirmation.HandedGenerationsAreConfirmed` | internal/manager/manager.go:217-226 | the same of every generation that the deploy confirmer hands back |
| `GenerationHistory.EvaluationIsRecorded` | internal/store/generation.go:189-228 | in every run a listed generation is recorded as evaluated or failed exactly when its evaluation ended so, with the storepath and machine identifier of that result |
| `GenerationHistory.BuildsAreOfEvaluated` | internal/builder/builder.go:330-390 | in every run whatever is being built had an evaluation that ended without failure |
| `GenerationHistory.FailedIsNeverBuilt` | internal/builder/builder.go:285-390 | after a failed evaluation no step of the run, confirmation or Resume, ever starts a build of the generation |
| `GenerationHistory.BuildIsRecorded` | internal/store/generation.go:230-279 | in every run a listed generation is recorded as being built exactly while it is, and as built or failed exactly when its last build ended so |
| `BuilderHistory.SuspendedAsAsked` | internal/builder/builder.go:271-328 | in every run the builder is suspended exactly when this was asked for last, and a suspended builder builds nothing |
| `BuilderHistory.BuildStartsIff` | internal/builder/builder.go:285-366 | a step starts the build of a generation exactly when it is evaluated, not built and nothing else is worked on, and the step is its confirmation with the builder not suspended or the resumption of a suspended builder that manages it |
| `BuilderHistory.ReadsAsEvaluatingIff` | internal/builder/builder.go:194-247 | in every run the builder reads as evaluating exactly when it is, or when the last evaluation asked for was refused |
| `BuilderHistory.LoopLearnsOfTheFirst` | internal/builder/builder.go:249-267 | in every run the builder holds out to the loop the first generation whose evaluation, or build, ended since the loop last received one, and none exactly when there is no such generation |
| `Composition.ConfirmersFollow` | internal/manager/manager.go:183-226 | in every run of the composed system both confirmers are in the state of confirmers alone with the same events |
| `Composition.EmissionIsHeldOut` | internal/manager/manager.go:198-217 | what a confirmer alone would emit is what the loop is handed |
| `Composition.ConfirmedIsSubmitted` | internal/manager/manager.go:217-226 | a confirmed listed generation becomes the pending submission, with its storepath and operation, and the runner has its token; when it equals the deployment compared with, or is gone, the deployer stays as it is |
| `Composition.HandedIsPending` | internal/manager/manager.go:217-226 | in every run each generation handed over is the pending submission at the next state, unless it counts as deployed |
| `Composition.DeployerFollows` | internal/manager/manager.go:217-226 | in every run the deployer is what it is alone with an unforced submission for each generation handed over |
| `Composition.TakenWasOffered` | internal/deployer/deployer.go:188-231 | in every run whatever the runner holds was confirmed and handed over by the loop or forced by a user |
| `Delivery.IsBuilding` | internal/builder/builder.go:313-390 | a confirmed generation that is evaluated and not built is built |
| `Delivery.VerifiedIsDelivered` | internal/manager/manager.go:162-230 | from every state with nothing under way, in every combination of confirmer modes, a verified commit becomes the pending submission of the deployer through evaluation, confirmation, build and confirmation |
| `Agent.StepKeeps` | internal/fetcher/git.go:66-97 | every step of the whole agent keeps: verified reports and events name approved commits, and so do all generations created |
| `Agent.ApprovedIsTrue` | internal/repository/repository.go:214-233 | a commit recorded as approved was selected and marked signed by an earlier update whose signature check accepted it |
| `Agent.DeployedCommitsAreSigned` | internal/manager/manager.go:166-226 | with keys configured, in every run, with any refs and any loss of events, each generation the loop hands to the deployer comes from a commit that an earlier update selected and marked signed, its check having accepted it |
| `Agent.HandedCommitsAreSigned` | internal/manager/manager.go:217-226 | the same of everything handed over so far |
| `AgentDelivery.AcceptedIsDelivered` | internal/manager/manager.go:162-230 | from every start of the agent, with or without keys, a fetch whose documented choice is new, and accepted if there are keys, has a run that ends with the generation of this commit pending at the deployer |
| `AgentDelivery.SignedExample` | internal/repository/repository.go:214-233 | such a run with keys configured, from a concrete start |
| `Profiles.ProfileDirectory.RemoveProfiles` | internal/profile/profile.go:27-76 | removes exactly the links that none of the reasons protects, or nothing when the directory or the default profile cannot be read |
| `Profiles.CleanUp` | internal/executor/utils.go:309-315 | a link stays exactly when it is recorded on a retained deployment, was just created, points to the booted system, is the default profile or the absolute path it designates, or cannot be read or removed |
| `Profiles.RelativeDefaultIsKeptIff` | internal/profile/profile.go:45-51 | the target of a relative default profile stays exactly when something else protects it |
| `Profiles.AbsoluteDefaultIsKept` | internal/profile/profile.go:45-51 | the target of an absolute default profile stays |
| `Profiles.RelativeDefaultExample` | internal/profile/profile.go:45-75 | a concrete directory whose default target is removed |

## Left out

- The gRPC server and client, the command line, the terminal interface, notifications, Prometheus and HTTP.
- Nix, git transport, switch-to-configuration, systemd and the post-deployment command: their results are parameters.
- GPG and SSH cryptography, and the parsing of the public key at the end of an allowed-signers line: a parameter.
- JSON persistence: loading starts from an arbitrary list; the migration of deprecated fields is not modelled.
- The broker's buffer sizes: any published event may be lost, at any time; other subscribers and log events are not modelled.
- Real time: timers tick at any moment at which they are armed, and progress is claimed only as runs that exist (`VerifiedIsDelivered`, `AcceptedIsDelivered`); the confirmer and the manager can block each other.
- `internal/builder/exec.go`: a task ends with any result; the wait in which its signal can be missed is not modelled.
- Aliasing of deployments and generations: they are values, identified by their UUID; a deployment held by the runner while the store drops it is not followed.
- Sharing of the slice that retention sorts in place with readers of the old list.
- Commits with missing ancestors: the commit graph is closed under parents, as a full clone is.
- Strings are sequences of Unicode characters; invalid UTF-8 is not modelled.
- The operation configured for a remote and branch: the manager steps take any operation.
- Reasons, log messages, commit messages and time stamps other than the creation time.
