# ThreatFusion verification model

A Dafny model of the ThreatFusion SOC project's evidence and publication logic, with proofs
over all inputs, all runs and all interleavings.

- **Evidence-bound explanations** (`IpScan`, `ExplanationEngine`, `TemplateGrounding`, `EngineTerms`, `Investigation`,
  `InvestigationDecisions`).
  The dotted-quad scanner is an explicit function tied to the regular expression's language. The
  verifier and the deterministic template are shown to agree for every bundle and every behaviour of
  the untrusted generator. The four-block builder's assets and technique and the citation-locked
  follow-up are modelled on the same scanner.
- **SOAR contract server** (`ContractServer`, `RepeatedAnswers`, `StrictJson`). Handler threads are a step machine whose
  steps interleave freely with ledger changes, file loss and restarts.
- **Residual audit** (`Sums`, `ResidualAudit`, `Concentration`, `Publication`). Conservation of residuals,
  the top-fraction shares, the self-describing output size, and publish/recover with a crash after any step.
- **Suricata follower** (`AlertCache`, `TextRead`, `LineSplit`, `EveFollower`, `DirtyCut`). The bounded cache against its alert
  history, the text decoder on bytes, and the incremental line splitter against splitting the whole stream.
- **Retrieval** (`Embedding`, `Ranking`), **phase-0 gate** (`AuditReports`, `ReadinessGate`, `ReadinessTerms`, `ReadinessVerdicts`,
  `RowConservation`, `ContentScan`, `ScanTerms`, `ReportKeys`, `GatePayloads`, `GateExample`) and the two
  **markup escapers** with the topology label wrapper (`Markup`).
- `Text`, `Numerals` and `JsonValue` hold what these share.

Digit and word characters are a table of which only the ASCII part is fixed, so the scanner's theorems
hold for any Unicode version. Hashes, the ledger class and the generator are arbitrary functions or events.

`EngineTerms`, `InvestigationDecisions`, `ScanTerms`, `ReadinessTerms` and `ReadinessVerdicts` say what these parts decide
a second time, in terms of the inputs and without the predicates the decisions are made with.

Where a promise does not hold of the code as written, the model keeps the code and proves exactly when it does:

- A verified explanation is not guaranteed for every bundle: `EveryAnswerVerifiedIff` gives the condition, and
  `TruncationExposesQuad` shows that the id cut to twelve characters is what has to be clean.
- Not every quad that matches in an explanation is compared with the inspected entities: `AnswerNamesInspected` says
  which ones are, and `OverlappedQuadIsMissed` shows one that is not.
- The technique chosen from a retrieval hit may carry a trailing newline (`TechniqueIsWellFormedIff`,
  `NewlineHitIsChosen`), although the documentation says malformed ids are rejected.
- Overlapping requests with one key can both be answered 200 (`OverlapAnswersTwice`); `RepliesAreBounded` and
  `AtMostOneWithoutOverlap` say what does hold.
- A key answered 200 is not always refused after a restart, although the ledger file persists and writes succeed: a
  check that cannot read the table lets it pass (`UnreadableTableAnswersTwice`); `CheckOutcome` is the exact rule.
- Polls of a growing log do not always add up to its text: a poll that begins inside a character or a line end changes
  the lines and, for alerts, the cache (`DirtyCutChangesTheCache`); `GrowingFileLines` is the exact condition.
- A cohort with aligned arrays is refused when a selected score is negative (`AggregateCohort`).
- Rows are lost from the readiness totals exactly when inputs share a stem (`ConservedIffStemsDistinct`,
  `RowsCanBeLost`), and the CIC combined total is not checked at all (`CicTotalIsUnchecked`).
- `training_ready` is never true (`TrainingIsNeverReady`).

`dafny verify dfyconfig.toml` checks the whole project.

## Model

| member | source | states |
|---|---|---|
| `IpScan.QuadLengthIsTheOnlyMatch` | backend/src/threatfusion/advisory/explanation_engine.py:21 | From any position the dotted-quad pattern matches at most one text, and the scanner's length is that match: both directions, against the pattern's own language. |
| `IpScan.EmptyScanMeansNoMatch` | backend/src/threatfusion/advisory/explanation_engine.py:21 | The scan of a text is empty exactly when no position of it starts a match with a word boundary on both sides. |
| `IpScan.WholeQuad` | backend/src/threatfusion/advisory/explanation_engine.py:21 | A text that is itself one dotted quad scans to exactly itself. |
| `IpScan.ScanSplitsAtFence` | backend/src/threatfusion/advisory/explanation_engine.py:21 | A character that is neither a word character nor a dot splits the scan of a text into the scans of its two sides. |
| `IpScan.ScanIgnoresFinalDot` | backend/src/threatfusion/advisory/explanation_engine.py:21 | A closing full stop neither adds nor removes a match. |
| `IpScan.ScanJoin` | backend/src/threatfusion/advisory/explanation_engine.py:175-186 | Joining texts by blanks or commas scans to the concatenation of their scans. |
| `IpScan.MatchIsCovered` | backend/src/threatfusion/advisory/explanation_engine.py:21 | Every match anywhere in a text begins inside one that findall lists. |
| `IpScan.FoundIsMatch` | backend/src/threatfusion/advisory/explanation_engine.py:21 | What findall lists are matches in the text, with a word boundary on both sides. |
| `ExplanationEngine.AllowedEvidenceKeys` | backend/src/threatfusion/advisory/explanation_engine.py:46-82 | The growing key set ends as the union of the base keys and the keys of every signal, entity, optional field and hit. |
| `ExplanationEngine.CollectCitedKeys` | backend/src/threatfusion/advisory/explanation_engine.py:289-332 | The growing list of cited keys ends as the template's citation list, in order. |
| `TemplateGrounding.TemplateCitesAllowedKeys` | backend/src/threatfusion/advisory/explanation_engine.py:289-332 | For every bundle, the template cites only keys the bundle allows. |
| `TemplateGrounding.TemplateScan` | backend/src/threatfusion/advisory/explanation_engine.py:233-355 | For every bundle, the quads the verifier finds in the whole template text are those of the interpolated fields, in order and nothing else. |
| `TemplateGrounding.TemplateVerifiedIff` | backend/src/threatfusion/advisory/explanation_engine.py:117-202 | The verifier accepts the deterministic template if and only if every quad in every interpolated field is an inspected entity. |
| `TemplateGrounding.EveryAnswerVerifiedIff` | backend/src/threatfusion/advisory/explanation_engine.py:208-231 | For every generator (absent, raising, returning anything) the engine's answer passes the verifier, if and only if the interpolated fields are grounded. |
| `TemplateGrounding.CleanEvidenceIsAlwaysAnswered` | backend/src/threatfusion/advisory/explanation_engine.py:208-231 | Fields without quads and entities that are each one quad suffice for every answer to be verified, whatever the generator does. |
| `TemplateGrounding.TruncationExposesQuad` | backend/src/threatfusion/advisory/explanation_engine.py:238-242 | Cutting a candidate id to twelve characters can expose a quad the whole id does not contain, so the condition is on the interpolated text and not on the field. |
| `EngineTerms.AllowedKeysAre` | backend/src/threatfusion/advisory/explanation_engine.py:46-82 | A key may be cited exactly when it is one of the base keys or names a signal, an inspected entity, a hit or an optional field the bundle has. |
| `EngineTerms.AnswerIsDecided` | backend/src/threatfusion/advisory/explanation_engine.py:117-231 | The engine returns the generator's explanation exactly when there is one that is advisory, cites only what the bundle has, names only inspected addresses in every text, names the model and the probability to four or three places, and whose note names the forest, the fusion and the disabling; in every other case it returns the template. |
| `EngineTerms.AnswerNamesInspected` | backend/src/threatfusion/advisory/explanation_engine.py:175-194 | In any answer but the template, every quad that matches anywhere in a text begins inside a matched quad that is an inspected entity. |
| `EngineTerms.OverlappedQuadIsMissed` | backend/src/threatfusion/advisory/explanation_engine.py:175-194 | In 1.2.3.4.5 the quad that overlaps the first one is a match and is not looked at. |
| `EngineTerms.TemplateCitesExactly` | backend/src/threatfusion/advisory/explanation_engine.py:289-332 | The keys the template cites, both directions: the base keys, the first five signals, and what the incident, the enrichment, its entities, the hits and the optional fields provide. |
| `EngineTerms.HeadlineNamesCandidate` | backend/src/threatfusion/advisory/explanation_engine.py:238-242 | The headline names what follows the last colon of the candidate id, cut to twelve characters. |
| `Numerals.FixedReadsBack` | backend/src/threatfusion/advisory/explanation_engine.py:167-169 | A number formatted to fixed places is its sign, a whole part without leading zeros and as many digits as places, which read back as the nearest number of units, even on a tie. |
| `Investigation.AssetsAreGrounded` | backend/src/threatfusion/advisory/explanation_engine.py:506-578 | Affected assets are never empty, lie in the grounded set whenever it is non-empty, and are the lab default when it is empty; fallback assets are strictly sorted. |
| `Investigation.TechniqueIsWellFormedIff` | backend/src/threatfusion/advisory/explanation_engine.py:635-691 | The technique is canonical or the first hit's; it is a well-formed id unless no claim is accepted and the first hit's id matches the pattern and ends in a newline. |
| `Investigation.NewlineHitIsChosen` | backend/src/threatfusion/advisory/explanation_engine.py:361 | The pattern's closing anchor accepts a trailing newline: such a hit is chosen although it is no technique id. |
| `Investigation.UngroundedClaimsAreIgnored` | backend/src/threatfusion/advisory/explanation_engine.py:506-578 | With an ungrounded explanation the assets and technique are those of a request that claims nothing. |
| `InvestigationDecisions.KnownIpsAre` | backend/src/threatfusion/advisory/explanation_engine.py:555-566 | An address is known exactly when it is inspected or follows the last colon of a provenance endpoint and begins with a quad. |
| `InvestigationDecisions.GroundedIs` | backend/src/threatfusion/advisory/explanation_engine.py:506-553 | A candidate explanation counts as grounded when a structured one meets the engine's terms, or every quad of a plain or dictionary one is known. |
| `InvestigationDecisions.AssetsAre` | backend/src/threatfusion/advisory/explanation_engine.py:568-578 | Claimed assets are used when the explanation is grounded and at least one is claimed and all are known; otherwise the assets are all known addresses, or the lab pair. |
| `InvestigationDecisions.TechniqueIs` | backend/src/threatfusion/advisory/explanation_engine.py:635-691 | A grounded canonical claim is used without its surrounding space; else the first hit's id when it passes the pattern; else T1071.001. |
| `Text.StripIs` | backend/src/threatfusion/advisory/explanation_engine.py:570 | Stripping takes white space from both ends and leaves none at either. |
| `InvestigationDecisions.StandingAlone` | backend/src/threatfusion/advisory/explanation_engine.py:734 | A technique id with no word character behind it is read, unless a longer one is read in its place. |
| `InvestigationDecisions.NamedIsListed` | backend/src/threatfusion/advisory/explanation_engine.py:734-752 | Every technique id that stands in a question between word boundaries is found. |
| `InvestigationDecisions.ListedIsNamed` | backend/src/threatfusion/advisory/explanation_engine.py:734-752 | What is found stands in the question. |
| `InvestigationDecisions.RefusedFor` | backend/src/threatfusion/advisory/explanation_engine.py:730-772 | A question that names an execution verb in any case as a word, an address that is not inspected, or a technique no hit has is refused: unverified, nothing cited and nothing authorized. |
| `InvestigationDecisions.AnsweredOtherwise` | backend/src/threatfusion/advisory/explanation_engine.py:774-797 | Every other question is answered from the bundle under the follow-up keys. |
| `Investigation.FollowUpVerifiedIff` | backend/src/threatfusion/advisory/explanation_engine.py:737-797 | A follow-up is verified if and only if its question names no unknown address or technique and no execution verb and the bundle's candidate id and model version are grounded (the rendered float always is); execution is never authorized and only allowed keys are cited. |
| `ContractServer.KeyStore.IsReplay` | scripts/run_misp_and_callback_contract_server.py:315-342 | A key is a replay when its scope's memory or the readable key table holds it. |
| `ContractServer.KeyStore.Commit` | scripts/run_misp_and_callback_contract_server.py:344-374 | A commit adds the key to its scope's memory and, when a ledger is configured or present and the write succeeds, to the table, and changes nothing else. |
| `ContractServer.CommitAffectsOnlyItsKey` | scripts/run_misp_and_callback_contract_server.py:310-374 | After a commit a key is a replay exactly when it is the committed key of the committed scope or was a replay before: the scopes are independent. |
| `ContractServer.RequestsMoveForward` | scripts/run_misp_and_callback_contract_server.py:1470-1891 | In every interleaving with restarts, a request only moves forward and its contents never change. |
| `ContractServer.CommitHasPassedGates` | scripts/run_misp_and_callback_contract_server.py:1745-1891 | Before every commit, in this order: the replay check passed, the body named playbook and candidate, the ledger file was there, the chain was valid, and the playbook's record was there, approved or executed, and for no candidate or the request's own; a callback then had its timing recorded. |
| `ContractServer.GatesAreExact` | scripts/run_misp_and_callback_contract_server.py:1537-1653 | A waiting handler passes its next gate exactly when what that gate looks at holds: both ids, a ledger file, a valid chain, a record that is there, approved or executed and not for another candidate. A missing, unapproved or foreign record is never let past. |
| `ContractServer.ReplyFollowsCommit` | scripts/run_misp_and_callback_contract_server.py:1872-1891 | Every 200 was preceded by its own commit. |
| `ContractServer.MemoryIsCommits` | scripts/run_misp_and_callback_contract_server.py:310-374 | At every point of every run a scope's memory holds exactly the keys committed in that scope since the last restart. |
| `ContractServer.TableIsCommits` | scripts/run_misp_and_callback_contract_server.py:344-374 | At every point of every run the table holds a key exactly when it was there at the start or was committed with a ledger and a successful write, and the file was not lost since; restarts and other failures play no part. |
| `ContractServer.CheckOutcome` | scripts/run_misp_and_callback_contract_server.py:315-342 | In every run a replay check is answered 409 exactly when its key was committed since the last restart, or the table can be read and holds the key by its history; otherwise the request passes. |
| `ContractServer.CheckAfterCommitIsRefused` | scripts/run_misp_and_callback_contract_server.py:1733-1743 | A request whose check at m comes after a commit of its key at n is answered 409 and never 200, if no restart came between, or that commit was written, the file was not lost between them and that check can read. |
| `ContractServer.RepliesAreBounded` | scripts/run_misp_and_callback_contract_server.py:1524-1535 | When every later check of a key sees its first commit, the requests answered 200 are among those already past the check at that commit, and so no more numerous. |
| `ContractServer.AtMostOneWithoutOverlap` | scripts/run_misp_and_callback_contract_server.py:1524-1535 | When requests for a key do not overlap and every check sees the first commit, at most one is answered 200, restarts included. |
| `RepeatedAnswers.OverlapAnswersTwice` | scripts/run_misp_and_callback_contract_server.py:1653-1654 | From every run in which two requests for one key are past the check with their gates open, both can go on to be answered 200. |
| `RepeatedAnswers.OverlapHappens` | scripts/run_misp_and_callback_contract_server.py:1524-1535 | Such a run exists for every request. |
| `RepeatedAnswers.UnreadableTableAnswersTwice` | scripts/run_misp_and_callback_contract_server.py:315-342 | For every request there is a run in which the file is never lost and every write succeeds, and yet after a restart a table that cannot be read lets a second, later request for the key be answered 200. |
| `ContractServer.RefusedNeverCommitted` | scripts/run_misp_and_callback_contract_server.py:1745-1891 | A request answered anything but 200 committed nothing at any point of the run. |
| `ContractServer.OnlyCommitsTouchKeys` | scripts/run_misp_and_callback_contract_server.py:1745-1891 | No step of a request other than its commit changes a key store. |
| `StrictJson.ObjectPairs` | scripts/run_misp_and_callback_contract_server.py:85-92 | The pairs hook builds the last-wins dictionary when names are distinct and refuses otherwise. |
| `StrictJson.StrictAgrees` | scripts/run_misp_and_callback_contract_server.py:384-395 | The strict decoder accepts a tree exactly when no object at any depth repeats a name, and then gives the ordinary decoder's value. |
| `ResidualAudit.OverlapConserves` | scripts/audit_network_autoencoder_residuals.py:319-346 | The eight overlap cells add up to the records, and both models' confusion counts are the matching sums of cells. |
| `ResidualAudit.CohortsPartitionTheirCells` | scripts/audit_network_autoencoder_residuals.py:349-356 | The four cohort masks are pairwise disjoint and as large as their overlap cells. |
| `ResidualAudit.GroupsPartitionFeatures` | scripts/audit_network_autoencoder_residuals.py:135-143 | Read end to end, the feature groups are the fourteen features, each once. |
| `ResidualAudit.RecordTotalIsRowSum` | scripts/audit_network_autoencoder_residuals.py:422-510 | A record's group errors add up to the sum over its fourteen features. |
| `ResidualAudit.GroupSumsAreFeatureSums` | scripts/audit_network_autoencoder_residuals.py:422-510 | For every set of records, summing records and grouping features commute. |
| `ResidualAudit.DominanceAccountsForEveryRecord` | scripts/audit_network_autoencoder_residuals.py:422-510 | Unique-dominant counts over all groups plus tied records plus records without error are the cohort size. |
| `ResidualAudit.DominantIs` | scripts/audit_network_autoencoder_residuals.py:422-510 | A group dominates a record exactly when the record has error and no group has more. |
| `ResidualAudit.UniquelyDominantIs` | scripts/audit_network_autoencoder_residuals.py:422-510 | It dominates alone exactly when every other group has less. |
| `ResidualAudit.SelectIs` | scripts/audit_network_autoencoder_residuals.py:422-430 | The selected records are the masked ones, in order and without gaps. |
| `ResidualAudit.CountWhereIs` | scripts/audit_network_autoencoder_residuals.py:422-510 | A count over records is the number of records that satisfy its condition. |
| `ResidualAudit.AggregateCohort` | scripts/audit_network_autoencoder_residuals.py:422-510 | The cohort report has one line per feature and group with their exact sums, fractions, counts and concentrations, and the concentration of the scores; totals by feature and by group agree and every record is accounted for. It is produced if and only if the input is aligned and no selected score and no group error of a selected record is negative. |
| `ResidualAudit.SquaresGiveNonNegativeGroups` | scripts/audit_network_autoencoder_residuals.py:422-510 | Non-negative squares give non-negative group errors, so on squares only a negative score is refused. |
| `ResidualAudit.FractionsAddToOne` | scripts/audit_network_autoencoder_residuals.py:422-510 | With any error at all, the features' and the groups' fractions both add up to one. |
| `ResidualAudit.SharesOfARecord` | scripts/audit_network_autoencoder_residuals.py:422-510 | The group shares of a record with error lie between zero and one and add up to one. |
| `Concentration.Concentrate` | scripts/audit_network_autoencoder_residuals.py:400-419 | Each of the three fractions gets its record count and its share of the total, in order; a negative value is the only error. |
| `Concentration.TopIsMaximal` | scripts/audit_network_autoencoder_residuals.py:400-419 | The top-k sum is attained by k records and no selection of k records exceeds it. |
| `Concentration.TopShareBounds` | scripts/audit_network_autoencoder_residuals.py:400-419 | With positive total, the largest k of n records hold between k/n and all of it. |
| `Concentration.ConcentrationIsMonotone` | scripts/audit_network_autoencoder_residuals.py:400-419 | Across the 1%, 5% and 10% lines a larger fraction selects no fewer records and reports no smaller share, each share lies between the proportional one and one, and a share is reported exactly when the total is positive. |
| `Concentration.SelectedIs` | scripts/audit_network_autoencoder_residuals.py:400-419 | A fraction selects its product with the count rounded up, but at least one record and at most all. |
| `Concentration.LineIs` | scripts/audit_network_autoencoder_residuals.py:400-419 | A line's share times the total is the sum of as many records as it counts, and no choice of as many has a larger sum; it has no share exactly when the total is not positive. |
| `Publication.SettleOutputBytes` | scripts/audit_network_autoencoder_residuals.py:812-826 | For every base size the loop that writes the total size into the file it measures stops within four rounds with a recorded size that is the real one and the one the publishing protocol uses; the unstable exit is unreachable. |
| `Publication.SizeSettles` | scripts/audit_network_autoencoder_residuals.py:812-826 | The third measurement is a fixed point, whatever the base size. |
| `Publication.OutputIsAbsentOrComplete` | scripts/audit_network_autoencoder_residuals.py:790-828 | Over every sequence of runs, errors and crashes after any step, the output is absent or complete for the report of a valid recovery file beside it. |
| `Publication.PublishedBinds` | scripts/generate_fyp_evidence_viewer.py:94-113 | Every published report passes the viewer's binding to the recovery file, output_bytes set aside. |
| `Publication.BindingIsExact` | scripts/generate_fyp_evidence_viewer.py:94-113 | The viewer binds a report exactly when digest and identity are right and the two reports agree in every field but resources, and in every entry of resources but output_bytes. |
| `Publication.RecoveryIsFinal` | scripts/audit_network_autoencoder_residuals.py:698-828 | Once a recovery file exists it never changes, and the output stays as it was or becomes complete for that file's report. |
| `Publication.RecoveryRunOutcome` | scripts/audit_network_autoencoder_residuals.py:842-849 | A whole run that finds a recovery file, whatever would have been computed: the retained report is published if and only if the file loads, there is no output yet and the settled size is within budget; in every other case the disk is left as it was. |
| `Publication.FirstRunOutcome` | scripts/audit_network_autoencoder_residuals.py:842-941 | A whole run that finds no recovery file: with an output present or nothing computed the disk is left as it was; otherwise the recovery file is the computed report's, and the output is complete for it if and only if the settled size is within budget. |
| `Publication.CrashIsRecovered` | scripts/audit_network_autoencoder_residuals.py:842-849 | After a crash anywhere past the recovery write, one undisturbed run publishes the retained report. |
| `Publication.RecordedBytesAreReal` | scripts/audit_network_autoencoder_residuals.py:812-826 | The size recorded in a published report is the size measured with that record in place. |
| `AlertCache.ReplayIsTrimmed` | scripts/follow_suricata_eve.py:37-58 | The bounded cache is always the newest part of a cache without a bound. |
| `AlertCache.UnlimitedIsHistory` | scripts/follow_suricata_eve.py:37-58 | Without a bound, a key holds its last signature, followed by exactly the keys alerted after it. |
| `AlertCache.CacheMatchesHistory` | scripts/follow_suricata_eve.py:30-58 | After any alerts the cache holds s for k exactly when s is the last valid signature for k and fewer than 256 other keys had valid alerts after it; it never exceeds 256 entries and keys are distinct. |
| `AlertCache.Cache.Remember` | scripts/follow_suricata_eve.py:37-58 | After a record with a signature, addresses, a protocol and an integer port, the history the cache stands for ends in the stripped signature under its source, destination, lower-cased protocol and port, and no other key's last signature changes; without any of them the history is as it was. It raises exactly for an infinite port behind a usable signature and address. |
| `AlertCache.Cache.Lookup` | scripts/follow_suricata_eve.py:61-79 | The signature attached to a flow is the one the history gives its 4-tuple. |
| `AlertCache.AlertThenFlow` | scripts/follow_suricata_eve.py:30-79 | A flow with the addresses, protocol and port of the alert just remembered gets that alert's stripped signature. |
| `AlertCache.NewestAlert` | scripts/follow_suricata_eve.py:37-58 | The newest alert is its key's last signature with no later key, and leaves every other key's last signature. |
| `LineSplit.SplitRoundTrip` | scripts/follow_suricata_eve.py:233-239 | Splitting into lines loses nothing: lines with their newlines plus the rest are the text, and no newline is left in any of them. |
| `LineSplit.SplitUnique` | scripts/follow_suricata_eve.py:233-239 | There is only one such split. |
| `LineSplit.SplitIncrementally` | scripts/follow_suricata_eve.py:233-239 | Splitting chunk by chunk with a carried partial line equals splitting the whole. |
| `TextRead.Utf8RoundTrip` | scripts/follow_suricata_eve.py:232-233 | Decoding undoes encoding for every text: the decoder replaces and loses nothing of well-formed UTF-8. |
| `TextRead.BeginningsArePrefixes` | scripts/follow_suricata_eve.py:232-233 | The byte sequences the decoder goes on reading are exactly the non-empty prefixes of encoded characters: no overlong form, surrogate or value past the last code point. |
| `TextRead.WholeIsEncoded` | scripts/follow_suricata_eve.py:232-233 | Encoding undoes decoding of every whole sequence. |
| `TextRead.ReadInOnePass` | scripts/follow_suricata_eve.py:232-234 | Decoding with replacement followed by newline translation is one pass over the bytes. |
| `TextRead.ReadInTwo` | scripts/follow_suricata_eve.py:232-234 | Two reads give the text of the joined bytes exactly when the cut falls neither inside a character nor between a carriage return and its line feed, which four bytes decide; otherwise they give more characters. |
| `TextRead.HalfACharacter` | scripts/follow_suricata_eve.py:232-234 | The bytes C3 A9 0A read at once are one letter and a newline; cut after the first byte they are two replacement characters and a newline. |
| `TextRead.HalfALineEnd` | scripts/follow_suricata_eve.py:232-234 | A carriage return and line feed cut apart are read as two newlines. |
| `EveFollower.EveryRunIsConsistent` | scripts/follow_suricata_eve.py:209-240 | Over every sequence of polls, handled lines plus newlines plus partial are what was read since the last reset, partial holds no newline, and what was read is the text of the bytes taken if and only if no read began inside a character or a line end. |
| `EveFollower.GrowingFileIsReadVerbatim` | scripts/follow_suricata_eve.py:209-240 | While the file only grows, the bytes taken are the file's own from the start position to the offset, and reads begin exactly where polls found more. |
| `EveFollower.GrowingFileLines` | scripts/follow_suricata_eve.py:209-240 | However a growing file is cut into polls, the lines handed on, in order and once each, and the partial line are those of the appended text if and only if no poll begins to read inside a character or a line end. |
| `EveFollower.TruncationStartsOver` | scripts/follow_suricata_eve.py:229-231 | A file found shorter than the offset is read again from its start, with nothing carried over. |
| `EveFollower.LostFileStartsOver` | scripts/follow_suricata_eve.py:215-228 | A lost file, found again, is followed from its end with nothing carried over. |
| `EveFollower.CutsDoNotMatter` | scripts/follow_suricata_eve.py:147-240 | Against a clean way of polling, another way of polling the same appended bytes hands on the same lines and partial line if and only if it is clean too, and then leaves the same alert cache. |
| `DirtyCut.DirtyCutChangesTheCache` | scripts/follow_suricata_eve.py:147-240 | For all text around an accented letter, a line appended in one go or cut inside the letter ends in the same file and hands on two different lines; whenever both are alerts of one 4-tuple with different signatures, the cache holds the first signature in one case and not in the other. |
| `EveFollower.Follower.HandleLine` | scripts/follow_suricata_eve.py:147-192 | A line is dispatched by its kind, extends the cache's history exactly when it is a usable alert, and raises on an infinite port and on what handle_line does not catch. |
| `EveFollower.OutcomesAre` | scripts/follow_suricata_eve.py:147-192 | What becomes of a line, both directions for each outcome: blank, unparsable, ignored, alerted, posted, noise, refused by the adapter, or raising. |
| `EveFollower.Follower.DrainPartial` | scripts/follow_suricata_eve.py:236-239 | The inner loop hands on every complete line and keeps the rest; a raise stops it at the raising line. |
| `EveFollower.Follower.PollOnce` | scripts/follow_suricata_eve.py:214-240 | One polling round moves to the specified position and hands on the specified lines. |
| `Embedding.Accumulate` | backend/src/threatfusion/advisory/chromadb_mitre_rag.py:490-505 | The nested loops leave in every component the sum of the tokens' signed weights and quarter-weight trigrams, in exact eighths. |
| `Embedding.ComponentIgnoresOrder` | backend/src/threatfusion/advisory/chromadb_mitre_rag.py:490-505 | The accumulator depends only on the multiset of tokens. |
| `Embedding.RawEmbeddingIsAdditive` | backend/src/threatfusion/advisory/chromadb_mitre_rag.py:449-505 | Texts joined by a character outside tokens have the sum of their accumulators. |
| `Embedding.TokenAlone` | backend/src/threatfusion/advisory/chromadb_mitre_rag.py:449-451 | A run of token characters is one token, which with the previous row determines the tokens of any text. |
| `Embedding.SignIsBit` | backend/src/threatfusion/advisory/chromadb_mitre_rag.py:495-504 | Signs are read off bit 7 of a token's hash and bit 5 of a trigram's. |
| `Embedding.EmbeddingIs` | backend/src/threatfusion/advisory/chromadb_mitre_rag.py:507-513 | An accumulator with any component gives its components over the norm, rounded to six places; one without gives the uniform vector. |
| `Embedding.RoundedNormIsNearOne` | backend/src/threatfusion/advisory/chromadb_mitre_rag.py:507-510 | After rounding to six places the squared norm is within 1e-5 of one. |
| `Embedding.FallbackExactlyWhenZero` | backend/src/threatfusion/advisory/chromadb_mitre_rag.py:507-513 | The norm test takes the uniform fallback exactly for an accumulator that is zero throughout. |
| `Embedding.EmbeddingIsNearUnit` | backend/src/threatfusion/advisory/chromadb_mitre_rag.py:442-513 | Every embedding, the fallback included, has squared norm within 1e-5 of one. |
| `Embedding.DotOfEmbeddings` | backend/src/threatfusion/advisory/chromadb_mitre_rag.py:636-640 | Any two embeddings have a dot product of at most 1 + 1e-5, so the upper clamp absorbs only rounding. |
| `Ranking.StableSort` | backend/src/threatfusion/advisory/chromadb_mitre_rag.py:657-658 | Sorting by distance permutes the candidates into order and keeps row order among equals. |
| `Ranking.Query` | backend/src/threatfusion/advisory/chromadb_mitre_rag.py:618-675 | A query returns the slice length with ranks 1, 2, ...; every omitted document comes after every returned one by distance then row; a vector of another length is the only error. |
| `Ranking.ReportedSimilarities` | backend/src/threatfusion/advisory/chromadb_mitre_rag.py:660-673 | The rounded similarities stay in [0, 1] and never increase down the ranking, and the distances never decrease. |
| `Ranking.ClosestFirst` | backend/src/threatfusion/advisory/chromadb_mitre_rag.py:636-675 | A returned row's dot product, clamped to [0, 1], is at least that of every row after it and of every row left out, and equal ones keep row order. |
| `Ranking.ReportedFromDot` | backend/src/threatfusion/advisory/chromadb_mitre_rag.py:638-673 | The reported similarity is the dot product rounded to four places when it lies in [0, 1], 0 below and 1 above, and the distance is the same of one minus it. |
| `Numerals.RoundIsNearest` | backend/src/threatfusion/advisory/chromadb_mitre_rag.py:508-510 | Rounding gives the nearest whole number of units in the last place, the even one on a tie. |
| `ReadinessGate.RunAudit` | scripts/audit_phase0_readiness.py:606-1063 | The collected blocker set holds exactly the blockers the inputs call for, and the two verdicts are read off it. |
| `ReadinessGate.VerifyReport` | scripts/audit_phase0_readiness.py:708-805 | A report is verified exactly when its keys, counts, rate, gates and completion are approved, no key at any depth normalises to a forbidden name and no key or text is sensitive, and its totals match manifest, quality and profile reports. |
| `ReadinessGate.CountReports` | scripts/audit_phase0_readiness.py:680-683 | The report counts are the number of loaded reports per dataset and name. |
| `ReadinessVerdicts.BlockersAre` | scripts/audit_phase0_readiness.py:606-903 | Each blocker is raised exactly when the manifests and reports call for it, with every condition said of the inputs: the last manifest of a name, one verified report under every expected name, none loaded twice, the first profile's time zone, classification and gates. |
| `ReadinessVerdicts.ReadyIff` | scripts/audit_phase0_readiness.py:1045-1063 | The pipeline is ready exactly when none of those conditions fails, the one that distinguishes a fixture from a baseline aside. |
| `ReadinessTerms.QualityVerifiedIff` | scripts/audit_phase0_readiness.py:708-719 | A quality report is verified exactly when its keys and contents are approved, its counts and rate add up, it is named after the last expected input of its stem, names that input, and states its manifest rows. |
| `ReadinessTerms.UnswVerifiedIff` | scripts/audit_phase0_readiness.py:754-771 | The UNSW profile is verified exactly when its keys, contents and counts are approved and it states the sum of the recorded totals of exactly the expected sources. |
| `ReadinessTerms.MordorVerifiedIff` | scripts/audit_phase0_readiness.py:741-753 | The Mordor profile is verified exactly when besides it names the one expected source, states its manifest rows, and its event counts and overflow make up that number. |
| `ReadinessVerdicts.CicVerifiedIff` | scripts/audit_phase0_readiness.py:720-740 | The CIC profile is verified exactly when its files are the expected sources, each once and with its manifest rows, and the combined counts agree among themselves. |
| `ReadinessVerdicts.SyntheticVerifiedIff` | scripts/audit_phase0_readiness.py:772-794 | The synthetic profile is verified exactly when its sessions are the expected sources, each once and with its manifest rows, they add up to the profile's counts, and each gate passed if and only if none of its results is false. |
| `ReadinessTerms.StrayReportIsRefused` | scripts/audit_phase0_readiness.py:796-797 | A report that is neither a quality report nor its dataset's profile is never verified. |
| `ReadinessTerms.FilesAreLast` | scripts/audit_phase0_readiness.py:606-651 | A dataset has the files and the verification of its last manifest. |
| `ReadinessTerms.RowsAreLast` | scripts/audit_phase0_readiness.py:628-634 | A file name has manifest rows exactly when a file of that name states them, and the last such file decides. |
| `ReadinessTerms.InputsAre` | scripts/audit_phase0_readiness.py:659-665 | The expected inputs are exactly the files in the contract's role that it does not exclude. |
| `ReadinessTerms.StemIs` | scripts/audit_phase0_readiness.py:671 | A name loses its last extension only, and a name with none, or one that begins or ends with its only dot, keeps all. |
| `ReadinessTerms.SourceIs` | scripts/audit_phase0_readiness.py:544-553 | The source of a report is its source_file when that is a safe name, else what follows the last slash of source when that is. |
| `ReadinessTerms.RecordedIsLast` | scripts/audit_phase0_readiness.py:699-704 | The recorded total of a source is that of the last quality report naming it. |
| `ContentScan.AddressMatchesPattern` | scripts/audit_phase0_readiness.py:431-436 | Every address the scan finds is a whole match of its dotted-quad pattern. |
| `ContentScan.MildKeyIsAllowed` | scripts/audit_phase0_readiness.py:439-447 | For any Unicode data, a key of small letters, digits and underscores that is not a forbidden name and lacks the letters of the sensitive words passes the scan. |
| `ScanTerms.AddressIs` | scripts/audit_phase0_readiness.py:431-436 | The addresses are exactly the dotted decimal texts of four numbers below 256. |
| `ScanTerms.SensitiveIs` | scripts/audit_phase0_readiness.py:426-436 | A text is refused exactly when it starts as a path, holds one of the sensitive phrases in some case, or holds an address with neither a word character nor a dot beside it. |
| `ScanTerms.CamelIsSnake` | scripts/audit_phase0_readiness.py:259-261 | A camel-case key is normalised to its words joined by underscores, whether its first letter is small or a capital. |
| `ScanTerms.HyphensAreUnderscores` | scripts/audit_phase0_readiness.py:259-261 | Words joined by hyphens are normalised to words joined by underscores. |
| `ScanTerms.SanitizedIs` | scripts/audit_phase0_readiness.py:439-454 | The contents are refused exactly when some key at some depth is forbidden or sensitive, or some text at some depth is sensitive. |
| `RowConservation.TrainingIsNeverReady` | scripts/audit_phase0_readiness.py:893-903 | In every run exactly one of the two synthetic blockers is present, so training is never ready. |
| `RowConservation.ExpectedReportIsUnique` | scripts/audit_phase0_readiness.py:829-841 | A ready pipeline has exactly one report under every expected name, and it is verified. |
| `RowConservation.RowsAreConserved` | scripts/audit_phase0_readiness.py:659-841 | In a ready pipeline the UNSW, Mordor and synthetic profile totals are accepted plus rejected and, with the rows of inputs hidden by a shared stem, the manifest rows of all expected inputs; with distinct stems the total is that sum. |
| `RowConservation.ConservedIffStemsDistinct` | scripts/audit_phase0_readiness.py:659-673 | When every expected input has rows, the total equals the manifest rows if and only if stems are distinct. |
| `RowConservation.ListedRows` | scripts/audit_phase0_readiness.py:659-673 | Manifest rows of the inputs are those with a quality report plus those lost to a shared stem, and none is lost exactly when stems are distinct. |
| `RowConservation.SourcesAreLast` | scripts/audit_phase0_readiness.py:669-673 | A quality report is expected for an input exactly when no later input has its stem. |
| `RowConservation.SharedStemIsShadowed` | scripts/audit_phase0_readiness.py:669-673 | Of two formats of one capture only the second keeps a quality report. |
| `RowConservation.MatchedEntriesAddUp` | scripts/audit_phase0_readiness.py:772-794 | Profile entries that match their manifest add up to the manifest rows of the expected sources. |
| `RowConservation.MordorEventsCoverRows` | scripts/audit_phase0_readiness.py:403-423 | In a ready pipeline Mordor's event-id counts plus overflow are the manifest rows of its inputs. |
| `RowConservation.CicTotalIsUnchecked` | scripts/audit_phase0_readiness.py:720-740 | The CIC profile's combined total is compared with nothing: any counts that agree among themselves verify in its place. |
| `GateExample.GateCanPass` | scripts/audit_phase0_readiness.py:1045-1063 | For all row counts and any Unicode data, manifests and reports with exactly the approved keys and contents that pass the modelled scan leave no gating blocker. |
| `GateExample.RowsCanBeLost` | scripts/audit_phase0_readiness.py:659-673 | For all row counts, a ready pipeline in which UNSW lists two formats of one capture: its profile total is short of the manifest rows by all rows of the hidden one. |
| `Markup.EscapersAreSinglePass` | frontend/js/soc_dashboard.js:3496-3504 | The chained replacements of both escapers equal one pass over the characters. |
| `Markup.EscapersAreSafe` | scripts/audit_network_autoencoder_residuals.py:650-651 | Both escapers can be undone, emit none of the other characters they target, and every ampersand they emit begins an entity (sections 2.4 and 4.6 of W3C XML 1.0). |
| `Markup.WrapLabel` | frontend/js/soc_dashboard.js:1058-1070 | The label wrapper cuts up to three lines and adds what is left: each cut falls before the last blank of the first 23 characters when that leaves at least 8, else after 22, and the rest is trimmed. It gives at most four lines, all but a fourth within 22 characters and all but the last of at least 8, and keeps every visible character in order. |
| `Markup.TrimIs` | frontend/js/soc_dashboard.js:1066 | Trimming takes white space from both ends and leaves none at either. |

## Left out

- Lower-casing beyond ASCII, which concerns the protocol of an alert and the text given to the embedding.
- Floating-point rounding: sums, quotients, norms and similarities are over the reals; NaN and infinities appear only where numbers are formatted.
- Concentration.Concentrate: takes the rounded product of fraction and count as an arbitrary function, so it covers any floating-point multiplication.
- ResidualAudit.AggregateCohort: leaves out the mean, median and percentile lines of a cohort.
- ExplanationEngine.AllowedEvidenceKeys: hits are records with looked-up fields; attribute access on arbitrary objects is not modelled.
- The other fields of the four-block anatomy (risk level, timeline, SOAR status) are formatting of single inputs.
- Verifier inputs of the generator that are dictionaries or plain strings are modelled only where the four-block builder and the follow-up use them.
- HTTP parsing, headers, signatures and rate limits of the contract server are refusals that may happen at any point before a commit.
- SQLite is a set of keys with a read failure and a write failure; two server processes on one ledger file are not modelled.
- StrictJson.StrictAgrees: starts from the parsed tree; JSON syntax errors are not modelled.
- Publication.SettleOutputBytes: takes the serialised size to be a base plus the digits of output_bytes, which is what the canonical dump of an otherwise fixed report gives.
- Publication.OutputIsAbsentOrComplete: one audit process at a time; two concurrent ones are not modelled.
- ReadinessGate.VerifyReport: a CIC combined entry that is not an object is read as an empty one, and integers and floats of equal value are told apart.
- ReadinessGate.RunAudit: the blockers of the split policy, predictors and Mordor isolation are an arbitrary set.
- Markup.WrapLabel: characters stand for UTF-16 code units.
- Embedding.RawEmbeddingIsAdditive: the token hash is an arbitrary function; texts are taken as already lower-cased.
- The ledger's own state machine, model scoring, document generators and the dashboard's rendering would add only interfaces or text.
