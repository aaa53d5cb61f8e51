# Paperless document consumer: a Dafny model

This project models the consumption pipeline of paperless's `Consumer`
(`src/documents/consumer.py`). The pipeline turns files dropped into a watched
consumption directory into stored documents. A pass lists the regular files
that are not on the ignore list, oldest first. It waits for a settle delay and
attempts only the files whose mtime has not changed. A file whose attempt
returns False goes on the ignore list. An attempt is a chain of gates:

1. the file name must match the title pattern;
2. no stored document may have the checksum of the file's bytes;
3. some registered parser must accept the file, and the heaviest is chosen,
   the earliest registered one on a tie.

After the gates come extraction (thumbnail, date, text) and then the store step.
The store creates the record, tags it with the union of the content-matched and
file-name tags, and writes the encrypted original and thumbnail. Then the
parser is cleaned up, the source file is deleted and a "finished" notification
is sent. If a `ParseError` happens, only the parser's clean-up runs and the
source file stays.

Layout:

- `base.dfy` (`Base`): shared value types.
- `sorting.dfy` (`Sorting`): a stable sort by an integer key. Python's stable
  `sorted` is used twice in the source: oldest-first by mtime, and highest
  weight first. The module also proves that the head of the sort is the first
  element with the smallest key.
- `platform.dfy` (`Platform`): the environment made explicit. Directories, the
  consumption directory's entries (path → bytes and mtime), the document store,
  the encrypted artifacts, an ordered event log and a token supply for `uuid4`.
  Its `Environment` class has one method per primitive effect.
- `parsers.dfy` (`Parsers`): parser declarations, the accepted candidates, the
  reference "first heaviest" choice, and the proof that the stable sort picks it.
- `records.dfy` (`Records`): `FileInfo`, the `created` fallback and the tag union.
- `pipeline.dfy` (`Pipeline`): one attempt (`Attempt`, `Extract`, `Stored`) and
  one pass (`RunPass`, `ConsumePass`), written as functions of the world.
- `properties.dfy` (`Properties`): the lemmas about those functions.
- `consumer.dfy` (`Consumption`): the `Consumer` class, `NewConsumer` for
  `__init__`, and `MakeDirs`. Each method is proved to compute exactly the
  corresponding `Pipeline` function.

Calls into code that is not part of this model are parameters. These are
`FileInfo.from_path`, the title regex, `hashlib.md5`, `Tag.match_all`,
`GnuPG.encrypted`, and what a parser instance returns for a file. They are
gathered in `Pipeline.Externals`. The registered declarations, which the
source gets from the `document_consumer_declaration` signal, are given as a
sequence of functions from path to an optional candidate. `time.sleep` is
modelled by the `settled` parameter of `ConsumeNewFiles`: the consumption
directory as it is after the delay.

Duplicates go on the ignore list exactly like the other rejected files,
because `try_consume_file` returns False for them
(`src/documents/consumer.py:109-114` and `98-99`).

## Model

| member | source | states |
|---|---|---|
| Sorting.SortBy | src/documents/consumer.py:91 | the sorted files are a permutation of the input, with non-decreasing key |
| Sorting.SortHeadIsFirstMin | src/documents/consumer.py:185-186 | the head of the stable sort is the first input element with the smallest key |
| Parsers.Accepted | src/documents/consumer.py:168-172 | the options are exactly the answers of the accepting declarations; none at all exactly when every declaration declines |
| Parsers.AcceptedPrefix | src/documents/consumer.py:168-172 | the options found among the first declarations are the first options, in the same order |
| Parsers.AcceptedFrom | src/documents/consumer.py:168-172 | registration order: the k-th option is the answer of a declaration with exactly k accepting declarations before it |
| Parsers.Heaviest | src/documents/consumer.py:184-186 | reference choice: a candidate whose weight is at least every other's, with every earlier one strictly lighter |
| Parsers.ChooseIsHeaviest | src/documents/consumer.py:181-186 | sorting by weight in reverse, stably, and taking the head gives the reference choice; no options give no parser |
| Parsers.ChosenDeclaration | src/documents/consumer.py:163-186 | the chosen class is the answer of one declaration that is at least as heavy as every acceptance, and every accepting declaration registered before it is strictly lighter |
| Records.RelevantTags | src/documents/consumer.py:210-211 | a tag is relevant iff it was matched in the text or named in the file name; the set is empty iff both lists are |
| Properties.ParserForIsHeaviest | src/documents/consumer.py:163-186 | the parser used is the first heaviest acceptance, and there is none iff every declaration declines |
| Properties.AttemptRejectsUnmatchedName | src/documents/consumer.py:104-105 | a name that does not match the title pattern gives False and changes nothing, not even the logging group |
| Properties.AttemptRaisesOnUnreadable | src/documents/consumer.py:109 | a matching path that is not a readable regular file makes the checksum's open raise, before any effect |
| Properties.AttemptRejectsDuplicate | src/documents/consumer.py:109-114 | a file whose checksum some stored document has gives False: no document, no deletion, no parser called, no notification |
| Properties.AttemptRejectsWithoutParser | src/documents/consumer.py:116-120 | when every declaration declines, the attempt gives False and nothing is stored or deleted |
| Properties.AttemptExtracts | src/documents/consumer.py:116-132 | once the three gates pass, the attempt extracts with the first heaviest parser |
| Properties.ExtractFailure | src/documents/consumer.py:134-146 | a ParseError from any of the three parser calls leaves only a fresh group, the started notification and one clean-up |
| Properties.AttemptParseFailure | src/documents/consumer.py:134-146 | on a ParseError the only effects are one fresh logging group, the started notification and exactly one clean-up; the source stays, no document, False |
| Properties.ExtractSuccess | src/documents/consumer.py:122-161 | without a ParseError: one document appended, the events are started, created, clean-up, unlink, finished with one group, the source is gone, both artifacts are written, True |
| Properties.AttemptSuccess | src/documents/consumer.py:122-161 | the same outcome for a whole attempt whose gates pass, with the first heaviest parser |
| Properties.ConsumedDocument | src/documents/consumer.py:190-214 | the new record's title, correspondent, file type, text and checksum (hash of the source bytes); created = file-name date, else parser date, else mtime; modified = created; the tags are the union |
| Properties.AttemptConsumedIff | src/documents/consumer.py:101-161 | an attempt consumes iff the name matches, the file is readable, its checksum is new, some parser accepts and extraction raises nothing |
| Properties.AttemptFrame | src/documents/consumer.py:101-161 | an attempt removes only the consumed file from the directory, only appends a document, and one that raises changes nothing |
| Properties.AttemptKeepsChecksumsUnique | src/documents/consumer.py:109-114 | if no two stored documents share a checksum before an attempt, none do after it |
| Properties.PassIgnore | src/documents/consumer.py:95-99 | the ignore list after the loop is the old one followed by exactly the attempted files that returned False, in processing order |
| Properties.PassAttemptsListed | src/documents/consumer.py:95-96 | every attempted file is one of the listed files, with its listed mtime |
| Properties.PassOrder | src/documents/consumer.py:91-95 | over an oldest-first listing, files are attempted in non-decreasing order of listed mtime |
| Properties.PassSkipsTouched | src/documents/consumer.py:95-99 | a file whose mtime differs from its listed one, or that has gone, is neither attempted nor added to the ignore list; a gone file is not skipped but aborts the pass when its turn comes (the OSError of line 96), and that abort leaves no attempt record |
| Properties.PassDocuments | src/documents/consumer.py:95-99 | documents are only appended, one per consumed file, and checksums stay unique |
| Properties.PassInbox | src/documents/consumer.py:95-99 | a pass removes from the directory exactly the files it consumed, and only attempts files that were there |
| Properties.PassCoversUnchanged | src/documents/consumer.py:95-96 | a pass that completes attempts every listed file still present with its listed mtime |
| Properties.PassConsumedIff | src/documents/consumer.py:95-99 | with no path listed twice, an attempted file has left the directory exactly when its attempt returned True |
| Properties.AttemptGroup | src/documents/consumer.py:122-128 | an attempt keeps every logged group below the token counter; when it changes the logging group, the new group was never logged before and tags all the started and finished records the attempt adds |
| Properties.ExtractGroup | src/documents/consumer.py:122-161 | an extraction opens a group no earlier record used, and its started and finished records carry that group |
| Properties.PassGroups | src/documents/consumer.py:95-99 | a pass keeps every logged group below the counter; its final logging group is the old one or one handed out during the pass |
| Properties.ConsumePassProperties | src/documents/consumer.py:83-99 | an empty listing changes nothing; otherwise the ignore list grows exactly by the rejected attempts, in mtime order; documents grow by the consumed ones with unique checksums |
| Properties.ConsumePassCovers | src/documents/consumer.py:91-99 | a completed pass attempts every listed file that is still in the settled directory with its listed mtime |
| Properties.ConsumePassInbox | src/documents/consumer.py:83-99 | over a listing with distinct paths, the directory loses exactly the consumed files, so an attempted file is still there exactly when its attempt returned False |
| Properties.ConsumePassGroups | src/documents/consumer.py:83-99 | a whole pass keeps every logged group below the counter |
| Properties.DistinctPathsPermuted | src/documents/consumer.py:91 | sorting the listing keeps its paths distinct |
| Properties.ConsumePassSkipsModified | src/documents/consumer.py:93-99 | a listed file modified during the settle delay is neither attempted nor ignored in that pass |
| Consumption.Consumer.constructor | src/documents/consumer.py:44-49 | a new consumer has its directories, parsers and collaborators, an empty ignore list and no logging group |
| Consumption.Consumer.ListCandidates | src/documents/consumer.py:83-86 | the listing holds every regular, non-ignored file of the directory once, with its mtime, and nothing else |
| Consumption.Consumer.ConsumeNewFiles | src/documents/consumer.py:78-99 | the new world, ignore list and logging group, and how the pass ends, are those of ConsumePass on the listing |
| Consumption.Consumer.ConsumeSorted | src/documents/consumer.py:95-99 | the loop over the oldest-first files leaves the world, ignore list and logging group, and ends, as RunPass says |
| Consumption.Consumer.TryConsumeFile | src/documents/consumer.py:101-120 | the verdict, new world and logging group are exactly Attempt's |
| Consumption.Consumer.ConsumeWith | src/documents/consumer.py:122-161 | the verdict, new world and logging group are exactly Extract's |
| Consumption.Consumer.GetParserClass | src/documents/consumer.py:163-186 | returns no class iff every declaration declines, else the first heaviest accepted class |
| Consumption.Consumer.Store | src/documents/consumer.py:188-230 | the world afterwards is Stored: the record with its tags, then the encrypted original and thumbnail |
| Consumption.Consumer.CleanupDoc | src/documents/consumer.py:232-234 | the source file is removed from the directory and the unlink is logged |
| Consumption.Consumer.IsDuplicate | src/documents/consumer.py:236-240 | no answer iff the file is not a readable regular file; otherwise True iff some stored document has the checksum of its bytes |
| Consumption.NewConsumer | src/documents/consumer.py:41-71 | the scratch directory is made first; then an unset directory, a missing one and an empty parser list are refused, in that order; otherwise a fresh consumer with an empty ignore list |
| Consumption.MakeDirs | src/documents/consumer.py:243-248 | afterwards every listed directory exists and nothing else changed; if all already existed, nothing changed |
| Platform.Environment.FreshToken | src/documents/consumer.py:122 | the counter's old value is returned and advanced; when every logged group is below the counter, the token differs from every logged group and the invariant still holds |
| Platform.Environment.MakeDir | src/documents/consumer.py:246 | the directory is added to the existing ones and nothing else changes; an existing one is no error |
| Platform.Environment.Emit | src/documents/consumer.py:126-130 | the event is appended to the log and nothing else changes |
| Platform.Environment.Settle | src/documents/consumer.py:93 | during the delay only the consumption directory's contents may change |
| Platform.Environment.CreateDocument | src/documents/consumer.py:200-208 | the record is appended and its identity is its position |
| Platform.Environment.AddTags | src/documents/consumer.py:214 | only that record's tags grow |
| Platform.Environment.WriteArtifact | src/documents/consumer.py:217-226 | the artifact file holds the given bytes afterwards |
| Platform.Environment.Unlink | src/documents/consumer.py:234 | the entry is removed and the unlink is logged |

## Left out

- File-system, database, hashing and encryption effects are abstract. The
  consumption directory is a map from path to bytes and mtime. The database
  is a sequence of records, whose positions are their ids. Encryption, md5,
  `FileInfo.from_path`, the title regex and `Tag.match_all` are function
  parameters.
- The settle delay (`FILES_MIN_UNMODIFIED_DURATION`, 0.5 seconds) is not a
  duration here. `ConsumeNewFiles` gets the directory's state after the delay,
  and nothing else changes the directory during the loop.
- Times are integers. The float `st_mtime`, `datetime.fromtimestamp` and
  `timezone.make_aware` are not modelled.
- Logging (`log`, the logger) and the `uuid4` value itself are left out. A
  uuid is a token from a counter. Freshness is the invariant
  `GroupsBelowCounter` (every logged group is below the counter), proved to be
  kept by `FreshToken`, `Attempt` and a whole pass. A world built with a log that
  breaks it, which the source cannot reach, is not excluded by the
  `Environment` constructor.
- Signal observers are left out. The started and finished notifications are
  entries of the event log.
- Exceptions other than `ParseError` are not modelled. This covers those raised
  inside `_store`, by the parser constructor `parser_class(doc)`, and by
  `get_thumbnail`, `get_date` and `get_text` (`src/documents/consumer.py:135-138`).
  They propagate uncaught in the source. Those from the three parser calls
  escape after the new logging group is set and the started signal is sent,
  and `cleanup()` is not called on that path, since there is no `finally`. So
  the single clean-up that `Properties.ExtractFailure` and
  `Properties.AttemptParseFailure` state holds for `ParseError` only. Because
  deletion is the last step, the source file would survive all of them. The only escaping errors modelled are the OSErrors from re-reading a
  vanished file's mtime and from opening a non-regular file.
- Consumption.Consumer.ConsumeSorted: this helper of the model holds the `for`
  loop of `consume_new_files`. The split keeps the proof small; the behaviour
  is the same.
- Consumption.Consumer.ConsumeWith: this helper of the model holds the second half of
  `try_consume_file` (after parser selection). The split keeps the proof small;
  the behaviour is the same.
- Consumption.Consumer.ListCandidates: `os.scandir` yields entries in an
  order the model does not fix. The scan takes them in an arbitrary order, so
  files with equal mtimes are tried in an order the model does not determine.
  This matches the source, which sorts stably by mtime alone.
- Consumption.NewConsumer: an unset directory (`None` or the empty string in
  the source) is the empty string here. `os.path.exists` sees only the modelled
  directories and the consumption directory's entries.
- Consumption.MakeDirs: `os.makedirs` also creates missing parent directories.
  If a listed path already exists as a regular file, it raises
  `FileExistsError`, which the source swallows, and no directory is made. The
  model covers neither case: every listed path simply becomes a directory.
- Correspondents are modelled by name. Tags are modelled by slug.
