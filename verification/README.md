# Halley, modelled and proved in Dafny

Halley records an agent's LLM calls into a content-addressed cassette, infers invariants from the
recording, replays it without spending anything, evaluates the invariants against the replay, and
bisects commits when they break. Beside that, an ingester turns spans into ClickHouse rows through a
Redis stream, and a dashboard follows a run live. This project models the parts of that system that
carry state or arithmetic and proves what they promise. `dafny verify dfyconfig.toml` checks all of it.

## How the modules build on each other

| modules | what they model |
|---|---|
| `Common` | the option type and a power of two |
| `Json`, `JsonText` | JSON values; every layout the code prints (`json.dump`, `json.dumps`, serde_json) and a parser for the grammar of RFC 8259 that undoes them |
| `KeyOrder`, `Canonical`, `CanonicalWidths` | the canonical JSON of bodies (rule D22) in Rust and in Python, and the hash that addresses bodies and requests |
| `KeyPaths`, `PathMeaning`, `WorkerPaths`, `WalkerAgreement` | the key-path walkers of the Python SDK and of the TypeScript worker, what a path says of the document, and exactly where the two agree |
| `Numbers` | values whose number tokens a runtime has read and printed again |
| `Runs`, `Inference`, `Evaluation`, `Verdicts` | recorded and served calls; inferring invariants; evaluating them; exactly which runs pass which invariants |
| `Recorders`, `Fixture` | the recorder, and the fixture writer with its body store |
| `Cassettes`, `Replay`, `ReplayRuns`, `ReplayExits` | the cassette with its cursors, the replay shim in pure and hybrid mode, whole runs of it, and how each of their calls ends |
| `StoredBodies`, `RecordReplay`, `HybridClosure`, `HybridCosts` | which body a reference loads after a write; record/replay end to end; the cassette a hybrid run writes, and what its live calls cost |
| `SelfConsistency`, `OwnInvariants`, `HybridInvariants` | exactly when a recording, or the cassette of a hybrid run, passes the invariants in its own index |
| `WorkerWriter`, `WorkerFixtures` | the worker's fixture writer, and fixtures it inferred and wrote, replayed by the shim and evaluated by the SDK |
| `Bisects` | the bisect command over an oracle that may be flaky |
| `WriterBatch`, `InsertErrors` | the stream writer's work on one batch, and how its insert loop ends by the texts of the errors |
| `WriterProtocol`, `WriterProgress`, `DeadLetters` | the consumer-group protocol of any number of writers, what they get done, and their dead-letter appends |
| `Ingest`, `IngestRows`, `Normalizer` | the two ways a raw span becomes rows |
| `LiveSpans`, `LiveHistory` | the dashboard hook that follows a run, and what it shows and waits for, told from its events |

Code that updates fields or loops is a class or a method here, proved against a function; the laws are
lemmas about those functions. Objects are sequences of fields in insertion order, numbers are the tokens
their runtime prints, characters are Unicode scalar values. SHA-256 is a parameter; a theorem that needs two
bodies not to collide says so with `CollisionFree` over the texts involved. Files are a map. Clocks, live
replies, CI verdicts, token counts and insert results are parameters, so every theorem holds for all of them.

## What does not hold, and exactly when it does

- Key paths collide when keys are empty or contain `.` or brackets (`KeyPaths.DottedKeysCollide`). The dictionary is
  the same for every key order if and only if no path is written twice with different kinds
  (`KeyPaths.OrderFreeExactly`).
- The Python and TypeScript walkers can disagree (`WorkerPaths.WalkersCanDisagree`). They agree on every key order of a
  value if and only if no object holds an integer-like key whose field writes a path that another field writes with a
  different kind (`WalkerAgreement.WalkersAgreeExactly`).
- A recording can fail the invariants in its own index. The latency bound comes from the wall clock but is compared with
  the sum of durations, so overlapping calls fail it (`SelfConsistency.OverlapFails`). And a body equal up to key order
  may be stored already, so ambiguous paths fail it (`OwnInvariants.AmbiguousFails`). It passes if and only if the
  recorded totals fit and the body stored for each call gives every shared path the recorded kind, which the store
  before the write and the run decide (`OwnInvariants.RecordingPassesExactly`); it passes on every store if and only if
  the totals fit and no recorded output body writes a path with two kinds (`OwnInvariants.EveryStorePassesExactly`).
- The direct conversion of a raw span and the one through the halley-raw adapter differ for other dialects, for a
  `run_id` that is not the trace id, for attributes with reserved names, and for numbers that change when they are
  printed and read again, and only then (`Normalizer.PathsAgreeExactly`; each cause on any plain span in
  `DialectDiffers`, `RunDiffers`, `ReservedNameDiffers`, `NumberDiffers`).
- A dead-letter append whose failure is ignored loses an entry (`WriterProtocol.FailedAppendLosesEntry`). An acknowledged
  entry is missing if and only if its one append failed and it is not stored (`DeadLetters.MissingExactly`).
- The live-span hook keeps the spans of the previous run (`LiveSpans.SpansOutliveTheRun`). It shows only the current
  run's if and only if no readable frame was ever received while another run was followed
  (`LiveSpans.ShowsCurrentRunExactly`).

Where code and comments disagree the model follows the code:

- `test_commit_reliable_n` (`cli/src/main.rs:758-800`) calls a commit good when any of its runs passes; its first
  comment line says every run has to.
- `transient_backoff_ms` (`ingester/src/pipeline/writer.rs:363-370`) never exceeds 25 600 ms; its comment says 30 000 ms
  from attempt 7 on. Transient errors do not raise the attempt number either, so the waits that occur are at most 800 ms.
- The writer's comments expect unacknowledged entries to be delivered again; its loop reads only new entries
  (`ingester/src/pipeline/writer.rs:101-115`).
- The recorder is said to mirror the worker exactly, but its token ceiling, `int(1.2 n) + 1`, is one above the worker's
  `ceil(1.2 n)` whenever 1.2 n is whole.

## Model

| member | source | states |
|---|---|---|
| JsonText.QuoteRoundTrip | sdk-py/halley_sdk/canonical.py:54-55 | a quoted string, ASCII-only or not, is read back character for character, surrogate pairs included, and the parser stops at its closing quote |
| JsonText.PrintThenParse | sdk-py/halley_sdk/fixture_writer.py:106-108 | every layout the code prints, with white space after it, parses back to the very value printed |
| KeyOrder.Utf8PreservesOrder | halley-canonical/src/lib.rs:44-45 | comparing keys by UTF-8 bytes (Rust) and by code points (Python) is the same order |
| Canonical.AscendingUnique | halley-canonical/src/lib.rs:44-47 | two ascending listings of the same fields are equal, so no sorting algorithm is special |
| Canonical.BTreeIsSorted | sdk-py/halley_sdk/canonical.py:25-30 | collecting fields into a byte-ordered tree and sorting them by code point list them alike |
| Canonical.RustQuoteAgrees | halley-canonical/src/lib.rs:49-53 | the two string escapers agree on every string |
| Canonical.Parity | sdk-py/halley_sdk/canonical.py:23-57 | Rust and Python print the same canonical text for every value whose number tokens agree |
| Canonical.CanonicalParses | halley-canonical/src/lib.rs:41-66 | parsing a canonical text consumes all of it and gives the value with its keys reordered |
| Canonical.CanonicalInjective | halley-canonical/src/lib.rs:30-66 | two values print the same canonical text if and only if they differ at most in key order, at any depth |
| CanonicalWidths.CanonicalWidth | halley-canonical/src/lib.rs:41-66 | a canonical text is exactly as long as its tokens with one comma or colon between two of them: no white space, and every character as itself or in its shortest escape |
| Canonical.SameEquivalence | halley-canonical/src/lib.rs:38-40 | equality up to key order is symmetric and transitive |
| Canonical.HashIdentifies | sdk-py/halley_sdk/canonical.py:60-63 | among texts that do not collide, equal hashes mean bodies equal up to key order, and the other way round |
| KeyPaths.Collector.Collect | sdk-py/halley_sdk/schema_inference.py:43-82 | the in-place walker adds exactly the writes of the value, in order, to whatever it held |
| KeyPaths.PathsOfHolds | sdk-py/halley_sdk/schema_inference.py:43-82 | a path is present when some write names it, with the kind of the last such write, and the required list names the same paths |
| KeyPaths.OrderFreeExactly | sdk-py/halley_sdk/schema_inference.py:74-82 | the paths of a value are the same for all its key orders if and only if no path is written with two kinds |
| KeyPaths.EitherWriteCanWin | sdk-py/halley_sdk/schema_inference.py:74-82 | any write can be made the last one for its path by reordering keys |
| KeyPaths.CleanIsConsistent | sdk-py/halley_sdk/schema_inference.py:43-82 | non-empty keys free of dots and brackets never make two paths collide |
| KeyPaths.PathsAreFaithful | sdk-py/halley_sdk/schema_inference.py:43-82 | with clean keys a path has a kind if and only if first-element descent along its steps reaches a recorded value of that kind |
| KeyPaths.DottedKeysCollide | sdk-py/halley_sdk/schema_inference.py:80-82 | a value and a reordering of it that give one path two different kinds |
| PathMeaning.KindsByDescent | sdk-py/halley_sdk/schema_inference.py:43-82 | with clean keys, a path is listed as null, boolean, number, string, array or object exactly when first-element descent along its steps reaches a value of that type, an object only when it has no keys |
| PathMeaning.KindsAgreeByDescent | sdk-py/halley_sdk/invariants.py:216-229 | where two dictionaries list one path, they give it one kind exactly when descent reaches values of one JSON type |
| WorkerPaths.JsOrderExactly | worker/src/jobs/invariant-infer.ts:164-172 | JavaScript lists the integer-like keys of an object first, ascending, and then the others in the order they came |
| WorkerPaths.JsValueSame | worker/src/jobs/invariant-infer.ts:164-172 | JavaScript's key enumeration changes a value in key order only |
| WorkerPaths.WalkersAgree | worker/src/jobs/invariant-infer.ts:142-173 | the two walkers give the same map whenever no path is written with two kinds |
| WorkerPaths.WalkersAgreeOnCleanKeys | worker/src/jobs/invariant-infer.ts:142-173 | so they agree on every value with clean keys |
| WorkerPaths.WalkersCanDisagree | worker/src/jobs/invariant-infer.ts:164-172 | a value with a dotted and a numeric key on which they disagree |
| WalkerAgreement.NoConflictAgrees | worker/src/jobs/invariant-infer.ts:142-173 | where no integer-like key parts two writes, the two walkers leave the same kind, or none, at each path |
| WalkerAgreement.ConflictRealised | worker/src/jobs/invariant-infer.ts:164-172 | where one does, some key order of the value makes them leave different kinds |
| WalkerAgreement.WalkersAgreeExactly | worker/src/jobs/invariant-infer.ts:142-173 | the walkers agree on all key orders of a value if and only if no integer-like key parts two writes of one path |
| Inference.InferSchema | sdk-py/halley_sdk/schema_inference.py:85-102 | only an object or array has a schema, made of the walker's dictionary |
| Inference.RequiredOpsAreTheOps | sdk-py/halley_sdk/schema_inference.py:126-127 | the required operations are those of the run, each once, ascending |
| Inference.InferParents | sdk-py/halley_sdk/schema_inference.py:129-138 | each call's parent position is that of the last call with the parent's span id, if any |
| Inference.InferInvariants | sdk-py/halley_sdk/schema_inference.py:113-186 | the loops produce the invariants the specification defines, and none for an empty run |
| Inference.InferredTells | sdk-py/halley_sdk/schema_inference.py:113-186 | an index names every family of a run: its operations call by call, each of them once in ascending order, the last call with the span id a call names as its parent, the paths and kinds of each object or array; and nothing for a run without calls |
| Inference.ParentsExactly | sdk-py/halley_sdk/schema_inference.py:129-138 | a call has a parent position exactly when a later or earlier call has the span id it names and that is not the zero id, and then the last such |
| Inference.SpanCostExactly | sdk-py/halley_sdk/schema_inference.py:16-22 | a call costs its tokens at the prices of its model per million, and nothing where the model has none; a written token of a priced model costs more than a read one |
| Inference.Round8IsNearest | sdk-py/halley_sdk/schema_inference.py:174 | rounding gives a number of eight decimals, and none is nearer |
| Inference.WallClockSpans | sdk-py/halley_sdk/schema_inference.py:160-162 | the wall clock is the longest time from the start of a call to the end of one |
| Inference.LatencyBoundExactly | sdk-py/halley_sdk/schema_inference.py:160-175 | a total s fits the bound inferred from w on the clock if and only if 5 s <= 6 w + 2 |
| Inference.TokenBoundExactly | sdk-py/halley_sdk/schema_inference.py:177-178 | a token ceiling admits the recorded total if and only if that total is at least -9 |
| Inference.WorkerTokenBoundExactly | worker/src/jobs/invariant-infer.ts:268-269 | the worker's ceiling admits the total too, and is one lower than the recorder's exactly when the total is a multiple of 5 |
| Inference.WorkerLatencyBoundAgrees | worker/src/jobs/invariant-infer.ts:250-266 | the two latency bounds are equal if and only if the wall clock did not run backwards |
| Inference.SequentialFitsWallClock | sdk-py/halley_sdk/schema_inference.py:160-162 | calls that do not overlap take no longer in sum than the run took on the clock |
| Evaluation.GreedyIsEmbeds | sdk-py/halley_sdk/invariants.py:236-238 | consuming one iterator finds all items if and only if an order-preserving embedding exists |
| Evaluation.IsSubsequence | sdk-py/halley_sdk/invariants.py:236-238 | the loop over the shared iterator answers whether the embedding exists |
| Evaluation.ExactImpliesSubsequence | sdk-py/halley_sdk/invariants.py:82-100 | a run that passes in exact mode passes in subsequence mode |
| Evaluation.EvalStructural | sdk-py/halley_sdk/invariants.py:68-124 | one result per structural check that is present, in order, passed exactly when its condition holds |
| Evaluation.EvalMetric | sdk-py/halley_sdk/invariants.py:127-180 | the same for token, latency, count and cost bounds; cost binds only runs with live spending |
| Evaluation.EvalSchema | sdk-py/halley_sdk/invariants.py:183-233 | the same for each served call's required keys and kinds, and a failure for a call not served |
| Evaluation.EvaluateInvariants | sdk-py/halley_sdk/invariants.py:26-65 | one result for each check the invariants ask for, family by family and in order, by whether it is met; so all pass if and only if every invariant holds, and there is always one |
| Verdicts.EachResultExactly | sdk-py/halley_sdk/invariants.py:68-233 | what each single result says, by entries of the ledger: their number, operations, totals, live spending, and each required path and kind |
| Verdicts.HoldsExactly | sdk-py/halley_sdk/invariants.py:26-238 | exactly which ledgers pass which invariants, for any of both |
| Verdicts.RunPassesExactly | sdk-py/halley_sdk/invariants.py:26-233 | exactly which ledgers, faithful or not, pass the invariants of a recording: as many entries as calls, the same operations in order, tokens and time within 6/5, live spending within its bound, and every leaf that descent finds in a recorded object or array found again with its type |
| Verdicts.CostBoundIsNearest | sdk-py/halley_sdk/schema_inference.py:164-174 | the bound on live spending is 6/5 of what the recorded calls cost at their models' prices, to the nearest eight decimals |
| Recorders.Read | sdk-py/halley_sdk/recorder.py:94-131 | an exchange is read into its observation exactly when the request, the reply and its usage can be looked up |
| Recorders.Recorder.Record | sdk-py/halley_sdk/recorder.py:94-141 | one captured exchange appends the one observation that stands for it and keeps the numbering; one whose request or usage cannot be read raises and changes nothing |
| Recorders.Recorder.RecordAll | sdk-py/halley_sdk/recorder.py:94-141 | of a whole run the exchanges that do not raise are recorded, in order and numbered without gaps |
| Recorders.CapturesExactly | sdk-py/halley_sdk/recorder.py:94-131 | a recorded run holds, in order, exactly the exchanges whose lookups succeed, each with both bodies, both clock readings and the time between them, the tokens of each side, the model asked for, and ok as its status exactly for a non-empty reply without an error |
| Recorders.SpanIdsDiffer | sdk-py/halley_sdk/recorder.py:113 | two calls share a span id if and only if they are the same call |
| Fixture.CollectBodies | sdk-py/halley_sdk/fixture_writer.py:31-67 | the hashing loop keeps the first body of each hash and one entry per observation |
| Fixture.SaveAll | sdk-py/halley_sdk/fixture_writer.py:95-109 | existing body files are skipped, the others written, and the two counts add up |
| Fixture.WriteFixture | sdk-py/halley_sdk/fixture_writer.py:19-118 | the files after the call are those of the specification, and as many bodies are new as were counted |
| Fixture.BodiesDistinct | sdk-py/halley_sdk/fixture_writer.py:42-45 | the collected bodies have pairwise different hashes |
| Fixture.BodiesCover | sdk-py/halley_sdk/fixture_writer.py:39-48 | both bodies of every observation, where present, are among them |
| Fixture.WrittenStoreOk | sdk-py/halley_sdk/fixture_writer.py:95-109 | body names stay the hashes of their contents, whatever the indexes hold |
| Fixture.WriteKeepsStore | sdk-py/halley_sdk/fixture_writer.py:95-115 | body names stay the hashes of their contents, no other file changes, and every reference of every index resolves |
| Fixture.WritesKeepStore | sdk-py/halley_sdk/fixture_writer.py:19-118 | the same after any number of writes, for every body file and index there is |
| Cassettes.Cassette.constructor | sdk-py/halley_sdk/replayer.py:42-62 | the table lists for each non-empty key the recorded indices in order |
| Cassettes.Cassette.Lookup | sdk-py/halley_sdk/replayer.py:64-75 | a lookup answers the entry at the recorded index under the key's cursor, as Python indexes a list, or raises, and moves only that cursor |
| Cassettes.PositionalFetch | sdk-py/halley_sdk/replayer.py:72-75 | with entries numbered by position that entry is the one the cursor is at, and nothing raises |
| Cassettes.Cassette.Load | sdk-py/halley_sdk/replayer.py:77-103 | a body is taken from the first candidate path that exists, null if none does, and a path that only looks like the long form raises |
| Cassettes.LoadBodyExactly | sdk-py/halley_sdk/replayer.py:83-103 | a reference loads the first of its places that is a file: without a leading halley/fixtures under the fixtures directory, under the slug, under the fixtures directory, as it stands; else null; and raises when its second part only starts with fixtures |
| Cassettes.LoadWrittenRef | sdk-py/halley_sdk/replayer.py:88-93 | a reference the fixture writer made loads the file it named |
| Cassettes.IndexRefsLoad | sdk-py/halley_sdk/replayer.py:77-103 | in a good store every body reference of every index loads a body with the hash it names |
| Cassettes.CursorCounts | sdk-py/halley_sdk/replayer.py:58-75 | a cursor is the lesser of the requests for its key and the observations with it |
| Cassettes.LookupIsNth | sdk-py/halley_sdk/replayer.py:51-75 | the n-th lookup of a key answers its n-th observation, or nothing past the last |
| Cassettes.ServedAtMostOnce | sdk-py/halley_sdk/replayer.py:64-75 | no observation is served twice |
| Cassettes.HitsAreBounded | sdk-py/halley_sdk/replayer.py:64-75 | hits per key are the lesser of requests and observations |
| Cassettes.LookupsCommute | sdk-py/halley_sdk/replayer.py:64-75 | lookups of different keys do not affect each other |
| Cassettes.NextRecorded | sdk-py/halley_sdk/replayer.py:51-75 | asked in recorded order, call k finds observation k, also among repeated keys |
| Replay.GuardIsTight | sdk-py/halley_sdk/replayer.py:140-157 | a request the guard lets through names no irreversible tool |
| ReplayExits.GuardExactly | sdk-py/halley_sdk/replayer.py:140-157 | the guard refuses a request exactly when a guarded name stands at a tool that only passed ones precede, allows it exactly when there is no guard, no tool, or only tools that pass, and raises on the rest |
| Replay.ReplayShim.CheckIrreversible | sdk-py/halley_sdk/replayer.py:140-157 | the guard's loop is decided by the first tool that is not allowed |
| Replay.ReplayShim.ServeHit | sdk-py/halley_sdk/replayer.py:176-213 | a hit logs and answers the recorded body, or the empty object for a falsy one |
| Replay.ReplayShim.ServeMiss | sdk-py/halley_sdk/replayer.py:215-279 | a miss ends a pure run with 78, a guarded hybrid run with 79, and otherwise logs the live reply |
| Replay.ReplayShim.WriteServed | sdk-py/halley_sdk/replayer.py:342-422 | only the first flush writes, and only a run with live calls writes a cassette |
| Replay.ReplayShim.Send | sdk-py/halley_sdk/replayer.py:162-279 | one intercepted request takes the shim's whole state and the files to those of the step |
| ReplayRuns.Drive | sdk-py/halley_sdk/replayer.py:162-279 | the shim driven by an agent makes exactly the specified run, ended by the first exit |
| ReplayRuns.LedgerHolds | sdk-py/halley_sdk/replayer.py:162-279 | over any run of any cassette ledger entries number themselves, a hit logs a recorded index, live entries in order are the live list, hits and live calls add up, a pure run has no live entry, and no live entry names an irreversible tool |
| ReplayExits.EndsExactly | sdk-py/halley_sdk/replayer.py:162-279 | how each call of a run ends, told from the calls and the entries: a pure run exits with 78 at the first request whose observations are used up, a hybrid run with 79 at such a request the guard refuses, otherwise it goes live; no other code occurs, and an exit is the last outcome |
| ReplayExits.AnswerIsNth | sdk-py/halley_sdk/replayer.py:173-206 | in any run, pure or hybrid, an answered request is answered from the observation recorded for it that as many equal requests precede, with the body that was on disk before the run |
| ReplayExits.ExitFlushes | sdk-py/halley_sdk/replayer.py:342-347 | a run that has not exited has missed and flushed nothing; an exit counts one miss and flushes the ledger as it stands |
| HybridCosts.LedgerAccounts | sdk-py/halley_sdk/replayer.py:176-279 | over any run, the entry of a live call has the call's own reply, tokens, model, time and price, that of a hit has the operation and tokens of a recorded entry and no cost, and what the ledger spent is what the calls that went live cost |
| HybridCosts.CostBoundExactly | sdk-py/halley_sdk/invariants.py:158-180 | a run meets its cost bound if and only if its live calls cost nothing or no more than the bound, in terms of the calls alone |
| RecordReplay.EntriesArePositional | sdk-py/halley_sdk/fixture_writer.py:35-67 | the written index numbers its entries by position, which the cursors rely on |
| StoredBodies.CollectedIsFirst | sdk-py/halley_sdk/fixture_writer.py:39-48 | the body collected under a hash is the first of the run with that hash |
| StoredBodies.LoadsStored | sdk-py/halley_sdk/fixture_writer.py:95-109 | after a write each reference loads the file already stored under its hash, else the first body of the run with it |
| RecordReplay.LoadsRecorded | sdk-py/halley_sdk/replayer.py:77-103 | the written index lists every call in order with its fields and the hash of its request, and both references of an entry load the bodies of its call, equal up to key order, whichever body was stored first under its hash |
| RecordReplay.IndexHead | sdk-py/halley_sdk/fixture_writer.py:69-82 | the index is headed by the run's name or else the slug, the time of its first call, and the first model a call names |
| RecordReplay.ReplayOfDisk | sdk-py/halley_sdk/replayer.py:162-213 | replaying the first k requests of a run against its entries never misses, serves observation i on call i, also among repeated requests, and answers with the body its reference loads |
| RecordReplay.ReplayOfRecording | sdk-py/halley_sdk/replayer.py:162-213 | replaying the recorded requests against the written fixture never misses, serves observation k on call k, and answers with the stored body, equal to the recorded one up to key order, a falsy one becoming the empty object |
| HybridClosure.RunFollows | sdk-py/halley_sdk/replayer.py:342-347 | a run touches no file before its flush and makes no call after it |
| HybridClosure.CassetteIsWritten | sdk-py/halley_sdk/replayer.py:389-422 | a run with live calls leaves, at exit, the cassette of its whole ledger |
| HybridClosure.CassetteListsLedger | sdk-py/halley_sdk/replayer.py:389-422 | that cassette lists the ledger in order, with the requests and replies it logged behind the two references of each entry |
| HybridClosure.ForwardedCallsSkip | sdk-py/halley_sdk/replayer.py:166-171 | calls the shim passes through leave no trace in a run |
| HybridClosure.LedgerFollows | sdk-py/halley_sdk/replayer.py:190-206 | however a run ends, its ledger holds one entry for each answered call, in order, and no other |
| HybridClosure.LedgerWellFormed | sdk-py/halley_sdk/replayer.py:176-279 | every body in the ledger of a run is well formed if those of the files, requests and replies are |
| HybridClosure.HybridRunIsReplayable | sdk-py/halley_sdk/replayer.py:215-422 | after any hybrid run of any cassette with a live call, whatever was replied and however the run ended, the cassette it leaves replays the calls that were answered without a miss and with the bodies logged as served |
| HybridClosure.WholeRunIsReplayable | sdk-py/halley_sdk/replayer.py:162-422 | when no call exits or raises, that cassette replays the very calls of the run, forwarded ones included |
| HybridInvariants.HybridPassesExactly | sdk-py/halley_sdk/replayer.py:389-422 | the cassette of a hybrid run, replayed, passes the invariants in its own index if and only if the totals of its ledger fit and so do the stored bodies |
| HybridInvariants.SequentialHybridPassesExactly | sdk-py/halley_sdk/replayer.py:190-279 | for calls one after the other with counted tokens the totals always fit, hits logged with no duration included, so the stored bodies alone decide |
| SelfConsistency.StructuralPasses | sdk-py/halley_sdk/invariants.py:68-124 | a faithful replay passes every structural check inferred from its run |
| SelfConsistency.MetricPassesExactly | sdk-py/halley_sdk/invariants.py:127-180 | it passes the metric checks if and only if the run's totals fit the arithmetic conditions |
| SelfConsistency.SchemaPassesExactly | sdk-py/halley_sdk/invariants.py:183-233 | it passes the schema checks if and only if each replayed body gives every shared path the recorded kind, whatever its number tokens |
| SelfConsistency.PassesExactly | sdk-py/halley_sdk/schema_inference.py:113-186 | one given faithful replay passes everything if and only if the totals fit and each replayed body gives every shared path the recorded kind |
| SelfConsistency.FitsEveryOrderExactly | sdk-py/halley_sdk/invariants.py:202-231 | a body fits its schema under every key order if and only if its own paths do not conflict |
| SelfConsistency.RunPassesItself | sdk-py/halley_sdk/invariants.py:26-65 | a run of non-overlapping calls with counted tokens and unambiguous paths passes its own invariants on every faithful replay |
| SelfConsistency.FixturePassesItself | sdk-py/halley_sdk/fixture_writer.py:69-82 | end to end: record sequential calls with counted tokens and unambiguous paths, write, replay, evaluate the invariants in the written index; everything passes |
| SelfConsistency.PlainExchangesPass | sdk-py/halley_sdk/recorder.py:94-141 | what the recorder makes of sequential readable exchanges with clean reply keys meets those conditions |
| SelfConsistency.OverlapFails | sdk-py/halley_sdk/invariants.py:137-155 | two simultaneous calls of 100 ms fail the invariants inferred from them |
| OwnInvariants.RecordingPassesExactly | sdk-py/halley_sdk/invariants.py:26-65 | a recording, written and replayed, passes the invariants in its index if and only if its totals fit and the body stored for each call, told from the store before the write and the run, gives every shared path the recorded kind |
| OwnInvariants.OwnBodiesPassExactly | sdk-py/halley_sdk/fixture_writer.py:39-48 | where each body is stored as it is, a recording passes if and only if its totals fit, however ambiguous its paths |
| OwnInvariants.EveryStorePassesExactly | sdk-py/halley_sdk/fixture_writer.py:95-109 | a run passes its own invariants on every good store if and only if its totals fit and no output body writes a path with two kinds |
| OwnInvariants.AmbiguousFails | sdk-py/halley_sdk/schema_inference.py:74-82 | two sequential calls answered with the two key orders of one ambiguous reply, written where nothing was, fail their own invariants although the totals fit |
| WorkerFixtures.WorkerFixturePasses | worker/src/jobs/invariant-infer.ts:201-279 | invariants the worker infers pass the SDK's evaluation on every replay whose bodies equal the recorded ones up to key order and number tokens, under the conditions of the SDK's own |
| WorkerFixtures.WorkerRunPassesExactly | worker/src/jobs/invariant-infer.ts:201-279 | exactly which ledgers, faithful or not, pass the invariants the worker infers from a run with clean keys: the calls and operations of the run, totals within 6/5 rounded up, and every leaf of a recorded object or array kept |
| WorkerFixtures.WorkerTells | worker/src/jobs/invariant-infer.ts:217-236 | they name the number of calls, the operations in order, and each call's parent as the recorder's do |
| WorkerWriter.WriteBodies | worker/src/jobs/fixture-write.ts:176-200 | existing body files are left alone, the others are parsed and printed again, and the two counts add up |
| WorkerWriter.ProcessFixtureWrite | worker/src/jobs/fixture-write.ts:111-256 | a run without calls raises and writes nothing; otherwise the files are those of the specification |
| WorkerWriter.RewrittenLike | worker/src/jobs/fixture-write.ts:184-198 | what JSON.parse and JSON.stringify make of a body reads back equal to it up to key order and number tokens |
| WorkerWriter.RawTextIsKept | worker/src/jobs/fixture-write.ts:184-193 | a text that is no JSON reads back as an object that holds it whole under raw_text |
| WorkerWriter.JobKeepsLike | worker/src/jobs/fixture-write.ts:176-200 | after the job every body file of the run is still like its body, so the job can run again |
| WorkerWriter.JobIndexLoads | worker/src/jobs/fixture-write.ts:152-245 | the index lists every row in order, its duration the time between its clock readings, and both references of an entry load bodies like those of the row |
| WorkerWriter.GoodStoreIsLike | sdk-py/halley_sdk/fixture_writer.py:95-109 | the files the SDK's writer left satisfy what the job asks of files it finds |
| WorkerFixtures.WorkerFixturePassesItself | worker/src/jobs/fixture-write.ts:111-256 | end to end: infer and write with the worker, replay with the shim, evaluate with the SDK; everything passes, whatever JavaScript makes of the numbers |
| Bisects.TestCommit | cli/src/main.rs:760-800 | n runs are always made, and a commit passes if and only if some run passes; of three, the first, the second or the third |
| Bisects.CeilLog2IsCeiling | cli/src/main.rs:699-720 | the probe bound is the rounded-up base-2 logarithm |
| Bisects.Search | cli/src/main.rs:678-720 | the end found was judged bad or is the last commit, the one before it was judged good or is the first, with at most the logarithm of the range in probes of three runs |
| Bisects.Bisect | cli/src/main.rs:633-755 | each way the command ends and when; a reported commit was judged bad in the last three runs and its predecessor good; runs are exactly 1 + 3 (probes + 1) |
| Bisects.ReportedIsBoundary | cli/src/main.rs:722-752 | for stable verdicts, monotone or not, the reported commit is bad and its predecessor good or the given good end; if monotone it is the first bad commit |
| WriterBatch.DecodeBatch | ingester/src/pipeline/writer.rs:129-143 | the decode loop sends every entry to one of two lists, in order |
| WriterBatch.DecodeSplits | ingester/src/pipeline/writer.rs:129-143 | the two lists together hold every entry of the batch once |
| WriterBatch.DecodeKeepsOrder | ingester/src/pipeline/writer.rs:129-143 | each of the two lists holds all entries of its sort in the order of the read |
| WriterBatch.DedupBatch | ingester/src/pipeline/writer.rs:161-175 | the loop with its set of seen hashes keeps first occurrences and aligns rows with ids |
| WriterBatch.DedupIsLossless | ingester/src/pipeline/writer.rs:161-175 | the kept bodies have different hashes, cover exactly the hashes of the batch, and rows stay one to one with ids |
| WriterBatch.KeptIsFirst | ingester/src/pipeline/writer.rs:161-175 | the kept bodies are exactly those whose hash no earlier one has, in the order of the batch |
| WriterBatch.TransientBackoffBounds | ingester/src/pipeline/writer.rs:363-370 | the backoff never decreases with the attempt and stays between 200 and 25 600 ms |
| WriterBatch.InsertWithRetry | ingester/src/pipeline/writer.rs:183-251 | the loop ends as specified; success only after both inserts, dead-lettering exactly at the third permanent failure, shutdown only after a rejected insert; and each wait in turn, by the permanent failures so far |
| WriterBatch.RetryEnds | ingester/src/pipeline/writer.rs:185-251 | with finitely many transient errors the loop ends |
| InsertErrors.TransientExactly | ingester/src/pipeline/writer.rs:346-361 | an error is transient if and only if its text contains one of eleven words for a network failure, in any mixture of upper and lower case |
| InsertErrors.RetryExactly | ingester/src/pipeline/writer.rs:185-251 | how the loop ends, told from the texts of the errors, the body insert's first: it goes past failures, at most two of them without a network word; then success, the third such failure dead-letters, or shutdown stops the writer |
| InsertErrors.WaitExactly | ingester/src/pipeline/writer.rs:194-236 | each wait: 200, 400 or 800 ms after a network failure and 200 or 400 ms after another, by the other failures before it |
| InsertErrors.OutageNeverDeadLetters | ingester/src/pipeline/writer.rs:194-218 | while every error names a network failure the batch is never given up and every wait is 200 ms |
| InsertErrors.BadBatchDeadLetters | ingester/src/pipeline/writer.rs:218-249 | three errors that name none dead-letter the batch, unless shutdown fires after the first or second |
| WriterProtocol.OneTurn | ingester/src/pipeline/writer.rs:185-193 | two inserts lead a writer to acknowledging only if both went in, and else where the error's kind and the failures so far say |
| WriterProtocol.RetryFollowsPhases | ingester/src/pipeline/writer.rs:185-251 | the retry loop's outcome is the one the protocol's phases show |
| WriterProtocol.ActionKeeps | ingester/src/pipeline/writer.rs:94-326 | every action of every writer keeps the protocol's invariant |
| WriterProtocol.ExactlyOneStanding | ingester/src/pipeline/writer.rs:94-326 | in every reachable state a published entry is exactly one of undelivered, pending and acknowledged |
| WriterProtocol.AcknowledgedIsSettled | ingester/src/pipeline/writer.rs:145-325 | an acknowledged entry is stored with every body it came with or was dead-lettered, unless its own dead-letter append failed; `DeadLetters.MissingExactly` is the exact statement |
| WriterProtocol.NothingAcknowledgedIsMissing | ingester/src/pipeline/writer.rs:145-325 | with a dead-letter queue that accepts appends nothing acknowledged is missing |
| WriterProtocol.StoppedBatchStaysPending | ingester/src/pipeline/writer.rs:206-237 | a writer stopped between retries has acknowledged none of its batch, and none of it ever is |
| WriterProtocol.LeftPendingStaysPending | ingester/src/pipeline/writer.rs:101-115 | what a stopped writer left pending stays pending with it in every later state |
| WriterProtocol.FailedAppendLosesEntry | ingester/src/pipeline/writer.rs:145-155 | a run in which an entry is acknowledged but neither stored nor dead-lettered |
| WriterProgress.ReadCanSettle | ingester/src/pipeline/writer.rs:94-306 | from every state the invariant allows, an idle writer that reads new entries can settle all of them and be idle again: stored and acknowledged, or dead-lettered and acknowledged if undecodable, with everything else untouched |
| WriterProgress.OutageChangesNothing | ingester/src/pipeline/writer.rs:194-218 | any number of network failures leaves the writer, its batch and all stores as they were |
| WriterProgress.BadBatchIsLettered | ingester/src/pipeline/writer.rs:218-325 | three other failures lead to the whole batch dead-lettered and acknowledged, with nothing stored and the writer idle |
| DeadLetters.ActionKeepsLetters | ingester/src/pipeline/writer.rs:145-325 | every action of every writer keeps that an entry has at most one dead-letter append and that what may still be appended has had none |
| DeadLetters.MissingExactly | ingester/src/pipeline/writer.rs:145-325 | in every reachable state an acknowledged entry is stored or dead-lettered unless its one append failed and it is not stored, and then it is neither |
| DeadLetters.AcknowledgedResolves | ingester/src/pipeline/writer.rs:186-190 | in every run with complete spans and a dead-letter queue that accepts appends, an acknowledged entry is dead-lettered or its row is stored with every body it names |
| Ingest.IdRoundTrip | ingester/src/domain/span.rs:273-291 | an id of any width printed in hex is decoded back |
| Ingest.UuidRoundTrip | ingester/src/normalizer/halley_raw.rs:69-75 | a UUID's text parses back to it |
| Ingest.BodyBuffer.HashBody | ingester/src/domain/span.rs:307-329 | an absent body pushes nothing; a present one pushes exactly its row and returns its hash |
| Ingest.SortedAttributes | ingester/src/domain/span.rs:223-226 | whatever order the hash map is read in, the pairs end up in the one ascending listing |
| Ingest.ListingInjective | ingester/src/domain/span.rs:223-226 | two maps have the same listing if and only if they are equal |
| Ingest.TryFrom | ingester/src/domain/span.rs:190-266 | the direct conversion, its errors and their order included |
| Ingest.StatusReadsBack | ingester/src/domain/span.rs:94-103 | the status texts the writer publishes are read back as themselves and every other text as ok |
| IngestRows.IdExactly | ingester/src/domain/span.rs:275-291 | a text decodes to n bytes exactly when it is 2n hex digits, which those bytes print in lower case; else the error gives its length or the first byte at fault |
| IngestRows.DirectTells | ingester/src/domain/span.rs:190-266 | exactly which spans are converted, and every column of the row and every body row in terms of the span: ids, run, copies, the SDK's address of each body, status, attributes and the run root |
| IngestRows.RefusalTells | ingester/src/domain/span.rs:190-207 | a refused span is refused for the first of its trace, span, parent and run ids that is no hex text of its length |
| Normalizer.MergeAttributes | ingester/src/normalizer/halley_raw.rs:277-280 | in whatever order they come, the caller's attributes fill the keys the fields left free |
| Normalizer.RawSpanToOtlp | ingester/src/normalizer/halley_raw.rs:176-295 | packing a raw span gives the specified attributes or the first id's error |
| Normalizer.PackedIsDetected | ingester/src/normalizer/halley_raw.rs:35-41 | the adapter recognises every packed span |
| Normalizer.ExtraAttributes | ingester/src/normalizer/halley_raw.rs:91-123 | the loop keeps every attribute without a known name, in ascending order |
| Normalizer.NormalizeRestores | ingester/src/normalizer/halley_raw.rs:43-160 | normalizing a packed span gives back every field except bodies and attributes, whatever the caller's attributes |
| Normalizer.NormalizeRestoresBodies | ingester/src/normalizer/halley_raw.rs:58-67 | and the bodies too when no attribute has a reserved name, with their numbers printed and read again |
| Normalizer.IntoRows | ingester/src/domain/canonical.rs:82-133 | the row and the body rows of a normalized span |
| Normalizer.Convert | ingester/src/http/spans.rs:81-104 | the endpoint's stages, with the API key's project put in place of the span's, give what the span would give had it named that project |
| Normalizer.ProjectReplaced | ingester/src/http/spans.rs:94-96 | changing the project of a span changes the project of its normal form and nothing else |
| Normalizer.PathsAgreeExactly | ingester/src/normalizer/halley_raw.rs:43-295 | the two conversions give the same row, bodies and errors if and only if an id is malformed, or the dialect is halley-raw, the run is the trace's, no attribute name is reserved, and no number of a body changes when it is printed and read again |
| Normalizer.PlainSpanAgrees | ingester/src/normalizer/halley_raw.rs:43-160 | on a span of the adapter's own dialect without run, attributes or bodies the two paths agree |
| Normalizer.DialectDiffers | ingester/src/normalizer/halley_raw.rs:131 | on any such span under another dialect they differ |
| Normalizer.RunDiffers | ingester/src/domain/canonical.rs:102-103 | on any such span in a run other than its trace they differ |
| Normalizer.ReservedNameDiffers | ingester/src/normalizer/halley_raw.rs:91-123 | on any such span with an attribute of a reserved name they differ |
| Normalizer.NumberDiffers | ingester/src/normalizer/halley_raw.rs:58-67 | on any such span with a body that is a number which changes they differ |
| Normalizer.BodyRowIsAddressed | ingester/src/domain/span.rs:303-329 | the ingester stores a body under the address the SDK gives it, and its text reads back up to key order |
| Normalizer.BodyRowsAreNamed | ingester/src/domain/canonical.rs:88-93 | a hash is among the body rows if and only if the observation row names it |
| Normalizer.ConvertedIsSelfContained | ingester/src/domain/canonical.rs:88-132 | a converted span carries every body its row names, which referential integrity at acknowledgement relies on |
| Normalizer.EndpointRunsResolve | ingester/src/http/spans.rs:81-104 | in every run whose spans came through the endpoint, with a dead-letter queue that accepts appends, an acknowledged entry is dead-lettered or its row is stored with every body it names |
| LiveSpans.LiveSpansHook.DoConnect | dashboard/src/app/runs/[id]/useLiveSpans.ts:63-71 | connecting for an outdated generation does nothing; otherwise it opens one source and keeps it |
| LiveSpans.LiveSpansHook.OnOpen | dashboard/src/app/runs/[id]/useLiveSpans.ts:73-78 | an open of the current source resets the delay; an outdated source is closed |
| LiveSpans.LiveSpansHook.OnMessage | dashboard/src/app/runs/[id]/useLiveSpans.ts:80-92 | a readable frame of the current source adds its span unless the id, or the lack of one, is known |
| LiveSpans.LiveSpansHook.OnError | dashboard/src/app/runs/[id]/useLiveSpans.ts:94-111 | an error of the current source closes it, doubles the delay up to the cap and schedules the next generation |
| LiveSpans.LiveSpansHook.OnTimer | dashboard/src/app/runs/[id]/useLiveSpans.ts:108-110 | a timer that fires connects with the generation it was made for |
| LiveSpans.LiveSpansHook.SetUp | dashboard/src/app/runs/[id]/useLiveSpans.ts:114-121 | setting up starts a generation, clears what was there and connects |
| LiveSpans.LiveSpansHook.CleanUp | dashboard/src/app/runs/[id]/useLiveSpans.ts:123-128 | cleaning up outdates the generation and clears both refs |
| LiveSpans.AddSpanKeeps | dashboard/src/app/runs/[id]/useLiveSpans.ts:84-88 | adding a span keeps ids distinct, loses none, and leaves the span's id in the list |
| LiveSpans.StepKeeps | dashboard/src/app/runs/[id]/useLiveSpans.ts:63-129 | every event keeps the hook's invariant |
| LiveSpans.ReachableStates | dashboard/src/app/runs/[id]/useLiveSpans.ts:63-129 | while mounted there is exactly one of an open source, the current one for the current run, and a pending timer that will connect to that run; unmounted there is neither; the delay stays in 1 to 30 s and span ids stay distinct |
| LiveSpans.StaleEventsChangeNothing | dashboard/src/app/runs/[id]/useLiveSpans.ts:74-95 | an event of an outdated source changes nothing |
| LiveSpans.BackoffIsExponential | dashboard/src/app/runs/[id]/useLiveSpans.ts:101-103 | the k-th wait is 1 s times 2 to the k, capped at 30 s |
| LiveSpans.Outage | dashboard/src/app/runs/[id]/useLiveSpans.ts:94-111 | through an outage of any length the hook keeps trying the same run, having waited exactly those times |
| LiveSpans.Drive | dashboard/src/app/runs/[id]/useLiveSpans.ts:63-129 | the hook, driven by events in any possible order, makes exactly the specified run and keeps the invariant |
| LiveSpans.SpansAreFirstFrames | dashboard/src/app/runs/[id]/useLiveSpans.ts:80-92 | after any run of events the list is the first frame of each span id, in order, of all the frames current sources ever sent |
| LiveSpans.ShowsCurrentRunExactly | dashboard/src/app/runs/[id]/useLiveSpans.ts:114-129 | when each run's stream sends that run's spans, the list shows only spans of the current run if and only if no readable frame was ever received while another run was followed |
| LiveSpans.OneRunShowsItself | dashboard/src/app/runs/[id]/useLiveSpans.ts:114-129 | a hook that has followed one run only lists only its spans |
| LiveHistory.ReflectsItsHistory | dashboard/src/app/runs/[id]/useLiveSpans.ts:63-129 | after any run of events the hook follows the run last set up, shows whether its connection has opened, and has as its delay the backoff of the failures since the last opening or set-up |
| LiveHistory.FailureWaits | dashboard/src/app/runs/[id]/useLiveSpans.ts:94-111 | each failure schedules exactly that wait for that run, closes its source and touches nothing else |
| LiveHistory.OpeningResetsTheWait | dashboard/src/app/runs/[id]/useLiveSpans.ts:73-78 | a failure after an opening waits one second again |
| LiveSpans.SpansOutliveTheRun | dashboard/src/app/runs/[id]/useLiveSpans.ts:114-129 | a span of one run is still listed after a change to another |

## Left out

- SHA-256 itself: a parameter; nothing but the stated absence of collisions is assumed of it.
- Floating point: 1.2, prices and costs are reals, so rounding errors of binary doubles are not modelled.
- Number printing: tokens are given, so the known exponent difference between Python and Rust floats lies outside `Canonical.Parity`; what serde_json and JavaScript print for a number they have read is a parameter that turns number tokens into number tokens.
- WorkerWriter.RewrittenLike: says nothing of numbers too large for a double, which JSON.stringify prints as null; serde_json does not let such bodies in.
- Lone surrogates in JSON strings: characters are Unicode scalar values.
- Object keys that a text repeats: values have distinct keys; the parser keeps both fields where the runtimes keep the last.
- serde_json's nesting limit of 128 and recursion limits of Python.
- The index file's JSON text: an index is a file holding a value; loading it as a body counts as raising.
- Token counts: inputs of a call rather than read from its `usage`; a `model` that is no string counts as empty.
- Inference.RequiredOpsAreTheOps: does not cover the worker's UTF-16 sort of operations, which can order them differently.
- WorkerPaths.WalkersAgree: does not model the key `__proto__`, which a plain JavaScript object does not store.
- WriterProtocol.AcknowledgedIsSettled: states one half only, because `DeadLetters.MissingExactly` is the exact statement.
- WriterProtocol.ActionKeeps: `Writer::run`'s outer loop is a state machine over its awaited steps, not a method, because other writers act between them; decoding, deduplication and retrying are methods in `WriterBatch`.
- WorkerFixtures.WorkerFixturePassesItself: takes every body the run names to be in the database, because an expired one leaves a reference without a file.
- WorkerWriter.ProcessFixtureWrite: the database queries and the final update of the fixtures row are not modelled, and the invariants are taken as inferred, without edits by a user.
- WriterProtocol.LeftPendingStaysPending: says nothing of claiming another consumer's entries, because the writer never does.
- WriterBatch.InsertWithRetry: lower-casing an error text is done as far as it yields ASCII letters; the one other character that does, U+0130, yields an i that ends none of the words looked for.
- Ingest.TryFrom: the eleven text columns that the direct path copies unchanged are grouped in one record.
- Bisects.Bisect: takes from git that commit hashes are distinct and of one length.
- Normalizer.RawSpanToOtlp: the unused OTLP name, kind, events and status are not modelled, and the attribute map is kept as its known keys and the others.
- Normalizer.Normalize: Bool, Double, Bytes, Array and Kvlist attribute values are given by their two renderings.
- LiveSpans.LiveSpansHook.OnMessage: a frame that parses to null, which raises inside the handler, is not modelled.
- Fixture ids, UTC timestamps, run ids, path discovery, environment variables, console messages and summary files.
- git checkouts and restoring the repository: bisect is over an oracle from commit and run number to a verdict.
- The other dialect adapters, HTTP and gRPC receivers, database clients, bincode, metrics and live publishing.
- The semantic invariant, which the code ships as a disabled stub.
- Dashboard pages, React rendering, authentication and job wiring.
