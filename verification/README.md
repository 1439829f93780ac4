# Podcast publishing: a Dafny model with proofs

This project models a self-hosted podcast publishing service and proves what its stored rows, feeds,
accounts and printed texts promise.

- **The publishing store.** Podcasts, episodes and file rows in a database, audio objects in a bucket, and
  uploaded feeds. Episodes are updated in bulk by source key (source id and source type, ARCHIVED excluded),
  files by source URL, feeds by source id; rows are copied between episodes and shared by them. The main
  results say that these three keys stay consistent over every run of requests and workers, at every early
  exit of a worker; that the way a run ends fixes the status of every episode and what becomes of files, objects
  and feeds; which podcasts' feeds can be out of date after any run of the system; and that a second run does
  nothing.
- **Deletion.** An incremental, reference-counting deletion of files equals a one-shot set definition, and
  deleting a podcast is all or nothing.
- **Accounts.** Sign-in, refresh, sign-out, password change and invitations over a clock that never goes
  back: refresh tokens are rotated, deactivated sessions stay dead, an invitation registers one user.
- **Texts.** Durations, encrypted records, password records, and the stable audio file name: which printer
  and which reader undo each other, on which inputs exactly.
- **Presigned links and statistics.** A timed cache with a bound on what it serves, and two aggregate
  queries compared with sums over sets.

## How it is organised

Each component comes twice where the program works by changing things. A *specification* is a function of the
rows and of what the outside world answers (`Downloading`, `Uploading`, `Feeds`, `Creation`, `Deletion`,
`Requests`, `Accounts`). A *class* does the same step by step, with loops where the program loops and results
where it raises (`Transactions`, `Repositories`, `RssTask`, `DownloadTask`, `UploadTask`, `Handlers`,
`AccountHandlers`), and each method's contract equates the state it leaves with the specification. The lemmas
(`Consistency`, `DownloadingProofs`, `DownloadingOutcomes`, `RunEffects`, `RunTheorems`, `UploadTheorems`,
`StaleFeeds`, `FeedRuns`, `Machine`, `Lifecycle`, `Origins`, `RequestProofs`, `AccountProofs`,
`AccountTheorems`) are about the specifications. `Machine.Leads` takes the kind of steps a run is made of as an
argument: `AnyStep` for results about all runs, `Careful` where an upload may not take a PUBLISHED episode's
audio away. `FirstDay` runs the system from empty to a published episode, so that what the other results assume
is seen to come about, and `SharedDay` runs it to two published episodes on one uploaded file;
`FirstDay.SomeFirstDay` and `SharedDay.SomeSharedDay` give what they start from. `Doubles` says which integers
are double-precision floats, for the duration reader, which sums in floats. `Keys` says letter by letter under
which object an audio is stored, `TimeTexts` how the texts of media tools are read.

`dafny verify dfyconfig.toml` checks the whole project.

## Assumptions

- A watch URL belongs to one source, a source id to one kind of source, a thumbnail URL is never a watch URL,
  and the ids given to uploads are of the upload kind (`Consistency.Catalogue`, `Consistency.Sound`,
  `Creation.Plausible`).
- The worker is chosen by source type, as `src/modules/api/episodes.py:372-376` does (`Machine.Allowed`).
- Publish ids are new, as the unique column makes them (`src/modules/db/models/podcasts.py:72`), and an upload
  request finds the rows its queries ask for (`Machine.Allowed`).
- That a PUBLISHED episode can be played needs more: no accepted upload repoints one at an audio row that is not
  available (`Machine.Careful`, the negation of `Requests.Strands`, which can be evaluated before the request). The
  condition is exact for each step (`Machine.StepKeepsIff`), and `PrefixClash` reaches a state from the empty system
  in which it fails. No other result about runs needs it.
- Ids of downloadable sources have no slash, and digests are hexadecimal and of one length (`Origins.Plain`); only the
  results about object keys need it.
- Requests and worker runs do not overlap. A refresh authenticates and writes in two units of work; it is one
  step here.
- Row order among equal `created_at` values is unspecified: queries take the order in which the database
  happens to visit rows as an argument, and every statement is for all such orders.
- The object store copies an object onto itself without complaint, as `UploadTheorems.SharedUploadRun` needs. A store
  that refuses such a copy ends that run in `UploadFailed`, with its driver in ERROR and nothing else changed, which is
  an outcome of `Uploading.UploadedExitCauses` and covered by every result about runs.
- The cipher, key derivation, text encoding, digest and signature are functions. Decryption undoes encryption;
  a token is the payload that was signed; digests are hexadecimal.

## Where the code and its comments differ

The code is followed. The unit of work is documented as committing explicitly, but a session of its own is
committed unless the block raises (`Transactions.LeavingIsAtomic`). The password hasher says that iterations may
be changed safely, but a record verifies only under the iteration setting it was written with
(`Secrets.VerifyAcceptsIff`). It accepts every salt without the separator, but a record written with one that is
not ASCII cannot be verified: the comparison raises (`Secrets.OtherSaltRaises`). The comment on chapter times
shows one digit for hours; two are printed. The cleanup before a reload hands the stored path to the storage as
a file name, so the key it deletes is the audio prefix joined with that path, and the object under a relative
path stays (`DownloadTask.DownloadEpisodeTask.RemoveUnfinishedObject`). Creating an upload with a new cover
reads the cover's id before it is assigned, so the episode gets no cover (`Requests.WithCover`).

## Model

| member | source | states |
|---|---|---|
| Machine.ReachableIsConsistent | src/modules/tasks/base.py:57-75 | Every state reached by a run of careful steps, of any length, satisfies all row invariants. |
| Machine.ReachableIsStructured | src/modules/tasks/base.py:57-75 | Every state reached by any run at all keeps its rows connected and the three bulk keys in agreement. |
| Machine.StepKeepsIff | src/modules/tasks/download.py:51-122 | Each of fourteen kinds of step, with any answers of the outside world, keeps the row invariants exactly when it does not repoint a PUBLISHED episode at an audio row that is not available. |
| Machine.PublishedIsPlayable | src/modules/tasks/download.py:88-199 | In every state reached by careful steps a PUBLISHED episode has a publication time and its audio row exists and is available. |
| Machine.SourcesAgree | src/modules/services/episodes.py:62-238 | In every reachable state audio rows in use that share a source URL agree on path and size and belong to one source, and episodes of a downloadable source share that URL. |
| Machine.OneEpisodePerSource | src/modules/services/episodes.py:62-92 | In every reachable state a podcast holds at most one episode of a source. |
| Machine.FeedsStayApart | src/modules/db/models/podcasts.py:72-79 | In every reachable state no two podcasts share a publish id, which names the feed object, or a feed row. |
| Lifecycle.StepFollowsTable | src/modules/db/models/podcasts.py:40-61 | For every step, which status changes and deletions of an episode it may cause: a download run moves only episodes of its driver's source that are not ARCHIVED and the driver, NEW is for drivers alone, an episode in progress is never deleted, CANCELING is entered only from DOWNLOADING by the owner. |
| Lifecycle.CancelLasts | src/modules/api/episodes.py:343-402 | An episode that is being cancelled is neither restarted nor deleted over any run of requests and of workers for other sources: it stays CANCELING until a worker for its source, an archiving, or a creation that finds it. |
| Lifecycle.CancelledStays | src/modules/api/episodes.py:358-402 | From any reachable state an accepted start moves the episode to DOWNLOADING, the cancellation after it to CANCELING, changing nothing else, and it stays so over every run of steps that may not end a cancellation. |
| Consistency.UrlKeyIsSourceKey | src/modules/tasks/download.py:261-280 | The file key meets the episode key: equal audio source URLs exactly when equal source ids, and then equal source types. |
| Consistency.SetFilesAgreed | src/modules/db/repositories.py:209-219 | A bulk file update by source URL keeps rows of one URL in agreement. |
| DownloadingProofs.PublishFamilyPlays | src/modules/tasks/download.py:109-117 | Publishing a source by its two keys leaves every published episode with an available audio row. |
| DownloadingProofs.FailFamilyPlays | src/modules/tasks/download.py:184-193 | The failed download makes unavailable only audio whose users leave PUBLISHED. |
| DownloadingProofs.WorkKeeps | src/modules/tasks/download.py:51-122 | A download run keeps every invariant and only touches statuses and stored-file columns, at each of its exits. |
| DownloadingOutcomes.RunFixesStatuses | src/modules/tasks/download.py:51-122 | The way a run ends fixes the status and publication time of every episode; archived siblings and other sources are untouched on all exits. |
| DownloadingOutcomes.CodeFixesStatuses | src/modules/tasks/base.py:57-75 | Each result code fixes the episode table: PUBLISHED together; after a cancellation the driver NEW beside siblings left DOWNLOADING; a committed ERROR fails the family as one or marks the driver beside uniform siblings; an uncommitted run leaves all rows as they were. |
| DownloadingOutcomes.ExitCauses | src/modules/tasks/download.py:132-249 | Exactly which answers of the outside world lead to a skip, a failed download, a failed upload, and a success. |
| DownloadingOutcomes.OtherExitCauses | src/modules/tasks/download.py:51-249 | Exactly which answers lead to a missing path, a missing URL, and a stop by the user; every other case is a crash. |
| DownloadingOutcomes.StartFails | src/modules/tasks/download.py:51-100 | A run whose job cannot be saved, or whose episode or audio row is missing, crashes before it does anything. |
| DownloadingOutcomes.StoredMeans | src/modules/tasks/download.py:132-158 | A file counts as stored exactly when the storage answers with the recorded size and that is not zero. |
| DownloadingOutcomes.SentStays | src/modules/tasks/base.py:57-75 | Objects and feeds sent by a run that is rolled back stay; its rows do not. |
| RunEffects.RunFixesFiles | src/modules/tasks/download.py:132-280 | By the way a run ends, a crash included, one of three changes of the audio and image rows, the same of the stored objects, and which feeds are redone or kept. |
| RunEffects.OtherObjectsStay | src/modules/tasks/download.py:201-249 | However it ends, a run touches two objects at most: the one it sends and the one it takes for unfinished. |
| RunTheorems.RunRefreshesFeeds | src/modules/tasks/download.py:251-270 | If podcasts without the source had fresh feeds, then after a successful or skipping run whose uploads are accepted every feed lists exactly its PUBLISHED episodes, newest first. |
| RunTheorems.RerunSkips | src/modules/tasks/download.py:132-158 | After a committed success with non-zero size and unchanged storage, a run for any episode of the source skips, stores nothing, and changes no status and no audio or image row. |
| FirstDay.FirstRunPublishes | src/modules/tasks/download.py:88-122 | From the empty system, a podcast, an episode from a known source, and a run while everything outside works leave the episode PUBLISHED and its podcast's feed fresh. |
| FirstDay.SecondRunSkipped | src/modules/tasks/download.py:132-158 | A second run in the state so reached is skipped. |
| Uploading.WorkUploadedKeeps | src/modules/tasks/download.py:294-338 | A run for an uploaded episode keeps every row invariant at each exit. |
| Uploading.UploadedRunOutcome | src/modules/tasks/download.py:294-362 | Only the driver's row can change, to PUBLISHED with its creation time, ERROR or NEW; on success the object is at its stable key and only the driver's audio row records it, with the size found there. |
| Uploading.UploadedExitCauses | src/modules/tasks/download.py:301-356 | Exactly when such a run skips, rejects the stored size, fails to copy, or succeeds. |
| Uploading.OtherUploadedExits | src/modules/tasks/download.py:301-356 | Exactly when the user stops such a run, and when it crashes. |
| Uploading.CodeFixesUpload | src/modules/tasks/base.py:57-75 | The committed form: what each result code says about the driver, its file and the store. |
| Uploading.CopyTargetIsStable | src/modules/tasks/download.py:340-350 | Copying a copied upload again would write the same key. |
| Uploading.UploadPublished | src/modules/tasks/download.py:323-334 | Publishing an upload publishes the driver alone at its creation time and changes no file but its audio row; everything published stays playable, and the driver is. |
| UploadTheorems.UploadRefreshesFeeds | src/modules/tasks/download.py:323-338 | If podcasts without the source had fresh feeds, then after a successful run for an upload whose feed uploads are accepted every feed is fresh. |
| UploadTheorems.UploadRerunSkips | src/modules/tasks/download.py:301-312 | After a success that measured its copy, with unchanged storage, running again for the same upload skips and changes nothing. |
| UploadTheorems.SharedUploadRun | src/modules/tasks/download.py:294-352 | Running then for another episode on the same audio row publishes it without changing an object, an audio row or an image row. |
| SharedDay.SharedDayReached | src/modules/tasks/download.py:294-352 | From the empty system, one file uploaded to two podcasts and a run for each of its episodes publish both, and the second run leaves the objects as they were: what the row above assumes comes about. |
| Naming.AudioFilenameIsStable | src/modules/db/models/podcasts.py:329-339 | Recomputing the name from the path it was stored under gives it back exactly when the old basename was kept, the source id has no slash, or the new path still looks temporary. |
| Keys.KeptFilename | src/modules/db/models/podcasts.py:329-339 | A path that does not look temporary keeps its last component as the audio's name. |
| Keys.GeneratedFilename | src/modules/db/models/podcasts.py:329-339 | Otherwise the name is the source id, an underscore, the digest of source id, hyphen and salt, and the old extension. |
| Keys.DefaultFilename | src/modules/db/models/podcasts.py:329-339 | With `.mp3` when the old name has no extension. |
| Keys.FirstKey | src/modules/tasks/download.py:160-199 | The first download of a source is stored under the prefix joined with source id, digest and `.mp3`. |
| Keys.KeptKey | src/modules/tasks/download.py:160-249 | A kept path, and the path of an upload, gives its last component under the prefix. |
| Keys.GeneratedKey | src/modules/tasks/download.py:160-249 | A temporary path gives source id, digest and its extension under the prefix. |
| Keys.OwnKeyAgain | src/modules/tasks/download.py:160-249 | Downloading a source again uses the same key, even where the key itself looks temporary. |
| Keys.OwnKeysApart | src/modules/db/models/podcasts.py:335-337 | Different sources have different keys. |
| Keys.UnfinishedKeyApart | src/modules/tasks/download.py:201-215 | The key that the cleanup of a source deletes is no other source's own key. |
| Keys.KeptCopy | src/modules/tasks/download.py:340-350 | An upload outside a temporary place is copied to its last component under the prefix. |
| Keys.GeneratedCopy | src/modules/tasks/download.py:340-350 | An upload in a temporary place is copied to source id, digest and extension under the prefix. |
| Keys.CopiesApart | src/modules/tasks/download.py:340-350 | Two temporary uploads are copied to one key only if they have one source id. |
| Origins.ReachableIsWatched | src/modules/services/episodes.py:138-171 | In every reachable state an episode that is not an upload has a watch URL that belongs to its source. |
| Origins.NeverWithoutWatchUrl | src/modules/tasks/download.py:160-181 | No download run from a reachable state ends for want of a watch URL. |
| Origins.ReachableOwnKey | src/modules/tasks/download.py:232-249 | In every reachable state the audio of a downloadable episode is not stored yet or stored under its source's own key. |
| Origins.OthersObjectsStay | src/modules/tasks/download.py:88-122 | However it ends, a download run from a reachable state neither replaces nor removes another source's object. |
| Origins.SuccessIsOwn | src/modules/tasks/download.py:88-122 | After a success from a reachable state the object is under the source's own key, and every episode of the source says so, with the size found. |
| Queries.Select | src/modules/db/repositories.py:495-576 | A filtered query lists exactly the passing rows, each once, newest first. |
| Queries.Where | src/modules/db/repositories.py:118-122 | A query by ids answers exactly the visited rows with those ids. |
| Feeds.FeedItems | src/modules/tasks/rss.py:83-93 | A feed is rendered from exactly the podcast's PUBLISHED episodes with a publication time, newest first. |
| Feeds.Affected | src/modules/tasks/download.py:251-259 | The feeds regenerated are those of the podcasts holding an episode of the source. |
| Feeds.GenerateFeeds | src/modules/tasks/rss.py:29-81 | A feed run at once: accepted feeds list their published episodes, all others stay. |
| Feeds.GenerateTouches | src/modules/tasks/rss.py:48-81 | A feed run changes no row but the feeds' own file rows, and no object. |
| Feeds.GenerateSucceeds | src/modules/tasks/rss.py:29-46 | A feed run completes exactly when every selected podcast renders. |
| StaleFeeds.FreshAfterIff | src/modules/tasks/rss.py:83-93 | A fresh feed stays fresh exactly as long as its podcast's set of PUBLISHED episodes does. |
| StaleFeeds.QuietFreshIff | src/modules/api/episodes.py:343-402 | Any step that publishes nothing and leaves the feeds alone puts a fresh feed out of date exactly when its podcast loses a PUBLISHED episode. |
| StaleFeeds.StepQuiet | src/modules/api/episodes.py:113-402 | Every step but the workers' is of that kind. |
| StaleFeeds.DeletionStalesIff | src/modules/api/episodes.py:343-356 | Deleting an episode leaves its podcast's feed stale exactly when the episode was PUBLISHED. |
| StaleFeeds.StartStalesIff | src/modules/api/episodes.py:358-383 | So does starting a download again. |
| FeedRuns.StepFresh | src/modules/tasks/download.py:251-280 | Every step, failed, crashed and rolled-back worker runs included, keeps fresh what the updated set of stale podcasts does not name. |
| FeedRuns.RunsAreTracked | src/modules/tasks/rss.py:29-93 | Every run of the system, with any steps, can be tracked. |
| FeedRuns.TrackedFeedsAreFresh | src/modules/tasks/rss.py:29-93 | After every tracked run, the feed of every podcast outside the set kept along it lists exactly its PUBLISHED episodes, each once, newest first. |
| FeedRuns.FeedRunRepairs | src/modules/tasks/rss.py:29-46 | In every reachable state one complete feed run over all podcasts, with every upload accepted, makes every feed fresh, committed or not. |
| Creation.ExistingIsReturned | src/modules/services/episodes.py:73-92 | An episode the podcast already holds is returned with nothing changed, wherever the query lists it. |
| Creation.OtherwiseNewestIsCopied | src/modules/services/episodes.py:93-238 | Otherwise, if episodes of the source exist, a newest one is copied, files column by column and with the extracted watch URL or else the copied one, and the request fails with the missing-files error exactly when that one lacks a file row; if none exists, everything starts with empty files that know their URLs, and the request fails exactly when the extractor did not answer. |
| Creation.CreateKeeps | src/modules/services/episodes.py:62-106 | Creation keeps all row invariants and answers with an episode of the podcast. |
| Creation.FindInIsFirst | src/modules/services/episodes.py:75-80 | The search answers with the first listed episode of the podcast, and with none exactly when none is listed. |
| Deletion.SafeDeleteRemoves | src/modules/db/repositories.py:461-493 | Deleting one episode removes it and exactly those of its files that have a path and no other user. |
| Deletion.DeleteAllRemoves | src/modules/db/repositories.py:461-493 | Deleting a list of episodes one by one equals the one-shot definition, and raises exactly when one is in progress. |
| Deletion.DeletionOrderIrrelevant | src/modules/api/podcasts.py:180-185 | The order in which the episodes are deleted makes no difference. |
| Deletion.DeletePodcastMeans | src/modules/api/podcasts.py:170-187 | The request succeeds exactly when the podcast is the user's, none of its episodes is in progress, and all are the user's; then podcast, episodes and their unshared files are gone. |
| Deletion.ForeignEpisodeBlocksDeletion | src/modules/api/podcasts.py:180-187 | An episode someone else put into the podcast makes its deletion fail at the foreign key. |
| Deletion.SurvivorsKeepFiles | src/modules/db/repositories.py:468-493 | Surviving episodes still point at existing, unchanged files, and podcasts at their feed rows. |
| Deletion.DeletePodcastKeeps | src/modules/api/podcasts.py:170-187 | Deleting a podcast keeps all row invariants. |
| RequestProofs.RequestCreateKeeps | src/modules/api/episodes.py:113-147 | The create request keeps all row invariants. |
| Requests.StartMeans | src/modules/api/episodes.py:358-383 | A start is accepted from the owner exactly while the episode is not in progress, and changes its status to DOWNLOADING and nothing else. |
| Requests.CancelMeans | src/modules/api/episodes.py:385-402 | A cancellation is accepted from the owner exactly while the episode is DOWNLOADING, and changes its status to CANCELING and nothing else. |
| Requests.CreateMeans | src/modules/api/episodes.py:113-148 | Creation starts the download exactly when the podcast says so, and is otherwise what the creator made. |
| Machine.StoreCoverMeans | src/modules/tasks/process.py:66-80 | A stored cover's row says where it is, its size and that it is available; nothing else changes. |
| Machine.AddPodcastMeans | src/modules/api/podcasts.py:41-56 | A new podcast is its creator's, with the publish id and the setting asked for and an empty feed file of its own; nothing else changes. |
| Machine.ConfigureMeans | src/modules/api/podcasts.py:140-158 | The owner's update changes that column of that podcast alone. |
| Machine.ConfiguredStarts | src/modules/api/podcasts.py:140-158 | After it, creation in the podcast starts the download exactly as the update says. |
| RequestProofs.UploadedMeans | src/modules/api/episodes.py:163-236 | An upload is accepted exactly when the podcast is the user's and the audio is known by hash or described; then the podcast holds it, in the episode it had for it or a new DOWNLOADING one, with the audio row found or one as described, a row for a new cover, and every other row as before. |
| RequestProofs.CoverIsOwn | src/modules/api/episodes.py:187-215 | The cover of an upload is an image of the same user with the same hash, and is missing only if none was stored before. |
| RequestProofs.RequestUploadedKeepsIff | src/modules/api/episodes.py:156-236 | From consistent rows an accepted upload keeps all row invariants exactly when it does not repoint a PUBLISHED episode at a file that is not available. |
| RequestProofs.RequestUploadedStructured | src/modules/api/episodes.py:156-236 | Clashing hashes or not, an accepted upload keeps the rows connected and the keys in agreement. |
| PrefixClash.ClashBreaksPlayable | src/modules/schemas/episodes.py:83-86 | From the empty system, a podcast, an upload, its run, and an upload of another file whose hash agrees on eleven characters reach a PUBLISHED episode without available audio, for any two such hashes. |
| PrefixClash.HashesClash | src/modules/schemas/episodes.py:83-86 | Two different hashes with one source id. |
| PrefixClash.ClashIff | src/modules/schemas/episodes.py:83-86 | Different hashes give one source id exactly when they agree on their first eleven characters; every such id starts with `upl_`. |
| Transactions.LeavingIsAtomic | src/modules/db/services.py:70-117 | Leaving a unit of work commits all or nothing, and exactly when; an owned session does not need the mark. |
| Transactions.UnitOfWork.Enter | src/modules/db/services.py:59-68 | An owned or idle session starts from the committed rows; an active one is left alone. |
| Transactions.UnitOfWork.Exit | src/modules/db/services.py:70-117 | The committed rows and the raising of every combination of ownership, mark, failure and database reaction. |
| Transactions.UnitOfWork.Commit | src/modules/db/services.py:124-134 | A refused commit rolls back and raises. |
| Transactions.UnitOfWork.Rollback | src/modules/db/services.py:136-145 | A rollback restores the committed rows and clears the mark. |
| Transactions.UnitOfWork.MarkForCommit | src/modules/db/services.py:162-164 | From then on leaving without an exception commits the block's rows, whoever owns the session. |
| Repositories.EpisodeRepository.SafeDelete | src/modules/db/repositories.py:461-493 | The loop over the file ids refines the deletion specification. |
| Repositories.EpisodeRepository.UpdateFamily | src/modules/db/repositories.py:578-586 | Every row of the source key that is not ARCHIVED gets the status, and the publication time if one is given; every other row and table stays; leaving PUBLISHED keeps the rest playable. |
| Repositories.EpisodeRepository.UpdateStatus | src/modules/db/repositories.py:186-207 | Only this row and only its status changes, a missing id is no error, and what stays PUBLISHED stays playable. |
| Repositories.FileRepository.UpdateBySource | src/modules/db/repositories.py:209-219 | Rows with the URL get the named columns, all others stay, and rows of one URL go on agreeing. |
| Repositories.FileRepository.UpdateById | src/modules/db/repositories.py:186-207 | Only this row and only the named columns change; rows of one URL go on agreeing when it carries none. |
| Repositories.FileRepository.Create | src/modules/db/repositories.py:162-168 | Inserts a row under an id no row has and no episode points at; all links stay valid. |
| Repositories.FileRepository.Copy | src/modules/db/repositories.py:733-744 | Inserts a copy for another owner, without the hash; fails when the row is missing. |
| Repositories.EpisodeCreator.Create | src/modules/services/episodes.py:62-106 | Refines the creation specification, answers and errors included. |
| Repositories.EpisodeCreator.Search | src/modules/services/episodes.py:73-80 | The loop with its early exit finds the podcast's episode and remembers the first one listed. |
| Repositories.EpisodeCreator.AddCopied | src/modules/services/episodes.py:126-216 | The copy branch, image row first, its watch URL, and its failure on missing files. |
| Repositories.EpisodeCreator.AddExtracted | src/modules/services/episodes.py:136-231 | The branch for the first episode of a source. |
| RssTask.GenerateRssTask.Run | src/modules/tasks/rss.py:29-46 | The loop with its accumulated results refines the feed run; ERROR exactly when an upload was refused. |
| RssTask.GenerateRssTask.GeneratePodcast | src/modules/tasks/rss.py:48-81 | An accepted upload makes this podcast's feed list its PUBLISHED episodes and its feed row say where, and changes no other row or feed; a refused one changes nothing. |
| DownloadTask.DownloadEpisodeTask.Run | src/modules/tasks/download.py:51-86 | The handlers turn every way of ending into a code and the driver's status, refining the run. |
| DownloadTask.DownloadEpisodeTask.HandleExit | src/modules/tasks/download.py:64-81 | Only the driver's status can change: NEW after a cancellation, ERROR after an unexpected failure, no row at all otherwise; what is published beside it stays playable. |
| DownloadTask.DownloadEpisodeTask.PerformRun | src/modules/tasks/download.py:88-122 | Step by step, refines the run from the row lookup to the last feed. |
| DownloadTask.DownloadEpisodeTask.CheckIsNeeded | src/modules/tasks/download.py:132-158 | Interrupts exactly when an object of the recorded non-zero size is stored, after publishing. |
| DownloadTask.DownloadEpisodeTask.RemoveUnfinishedObject | src/modules/tasks/download.py:201-215 | No object but the one under the derived key can go, none for a NEW or DOWNLOADING episode, and not the object under the recorded path unless that is absolute or there is no prefix. |
| DownloadTask.DownloadEpisodeTask.DownloadEpisode | src/modules/tasks/download.py:160-199 | The local path, or the way it ends with the rows of a failed download updated by both keys. |
| DownloadTask.DownloadEpisodeTask.UploadFile | src/modules/tasks/download.py:232-249 | The stored object, the recorded path and the measured size, or the family in ERROR. |
| DownloadTask.DownloadEpisodeTask.UpdateAllRss | src/modules/tasks/download.py:251-259 | Regenerates the feeds of exactly the podcasts found through the source's episodes. |
| DownloadTask.DownloadEpisodeTask.UpdateEpisodes | src/modules/tasks/download.py:261-270 | In a system whose keys meet, moves exactly the episodes of the source that are not ARCHIVED, whatever podcast holds them. |
| DownloadTask.DownloadEpisodeTask.UpdateFiles | src/modules/tasks/download.py:272-280 | In a system whose keys meet, patches exactly the audio rows of the source's episodes. |
| DownloadTask.AffectedPodcasts | src/modules/tasks/download.py:255-257 | The podcast ids collected from the query are those of the source's holders, and never none. |
| UploadTask.UploadedEpisodeTask.PerformRun | src/modules/tasks/download.py:294-338 | Step by step, refines the run for uploads. |
| UploadTask.UploadedEpisodeTask.CopyObject | src/modules/tasks/download.py:340-362 | The key of the copy, or the driver in ERROR. |
| UploadTask.UploadedEpisodeTask.Run | src/modules/tasks/download.py:289-294 | The inherited handlers around the run for uploads. |
| UploadTask.Worker.WorkDownload | src/modules/tasks/base.py:57-75 | Rows are committed whatever code the run returns and rolled back when it raises; objects and feeds already sent stay. |
| UploadTask.Worker.WorkUpload | src/modules/tasks/base.py:57-75 | The same around a run for an upload. |
| Handlers.EpisodeApi.Download | src/modules/api/episodes.py:358-383 | Accepted exactly from the owner while the episode is not in progress and the transaction commits; then only its status changes, to DOWNLOADING; otherwise nothing does. |
| Handlers.EpisodeApi.CancelDownloading | src/modules/api/episodes.py:385-402 | Accepted exactly from the owner while the episode is DOWNLOADING and the transaction commits; then only its status changes, to CANCELING; otherwise nothing does. |
| Handlers.EpisodeApi.Delete | src/modules/api/episodes.py:343-356 | Accepted exactly from the owner while the episode is not in progress and the transaction commits; then the episode and its unshared files are gone; otherwise nothing is. |
| Handlers.EpisodeApi.Create | src/modules/api/episodes.py:113-147 | Refines the create request, with the automatic start. |
| Handlers.EpisodeApi.CreateUploaded | src/modules/api/episodes.py:156-236 | Refines the upload request: audio, cover and episode rows, each found or inserted. |
| Handlers.PodcastApi.Delete | src/modules/api/podcasts.py:170-190 | All or nothing: whatever raises leaves the committed rows as they were. |
| Handlers.PodcastApi.DeleteEach | src/modules/api/podcasts.py:180-185 | The loop refines the deletion of a list and stops at the first episode in progress. |
| Tokens.DecodeInvertsEncode | src/modules/auth/tokens.py:74-132 | A token decodes as its own type, to what was signed, strictly before its whole-second expiry; the wrong type and lateness are told apart. |
| Tokens.CheckSession | src/modules/auth/tokens.py:203-217 | An accepted payload names a live session of its own, active user; a named session is refused as inactive exactly when it is not live, and as invalid exactly when it is live for another or an inactive user. |
| Tokens.AuthenticateRefresh | src/modules/auth/tokens.py:220-247 | An accepted token is an unexpired refresh token, stored with its live session, whose user it names and who is active. |
| AccountTheorems.BearerOpensIff | src/modules/auth/tokens.py:181-217 | An access token opens a session exactly when it is unexpired and names that session and its user, and the session is live and the user active. |
| AccountTheorems.RefreshOpensIff | src/modules/auth/tokens.py:220-247 | A refresh token does exactly when, besides, it is the one stored. |
| AccountProofs.StepKeeps | src/modules/auth/tokens.py:162-269 | Every handler keeps accounts coherent; session rows keep their user, never reactivate, and their expiry does not go back. |
| AccountProofs.RunKeeps | src/modules/api/auth.py:131-343 | The same over every run. |
| AccountTheorems.ReachableIsCoherent | src/modules/api/auth.py:131-343 | Over every run an email names at most one user, and invitations share no email, token or user. |
| AccountTheorems.AcceptedRefreshIsNewest | src/modules/auth/tokens.py:220-247 | After every run the refresh token a session accepts is the newest issued for it: no issued one expires later, the one that expires as late is the same token, and no other is accepted. |
| AccountTheorems.RefreshRetiresEarlier | src/modules/auth/tokens.py:250-269 | Once a refresh issued a token, no token of the session with an earlier expiry is accepted in any later run. |
| AccountTheorems.UsedTokenSurvivesIff | src/modules/auth/tokens.py:250-269 | The token just used stays good exactly when the new expiry falls in the same whole second. |
| AccountTheorems.DeactivatedForGood | src/modules/auth/tokens.py:193-247 | A deactivated session stays deactivated in every later run and no token authenticates for it. |
| AccountTheorems.SignOutCloses | src/modules/api/auth.py:232-244 | Signing out closes the session for good. |
| AccountTheorems.ChangePasswordCloses | src/modules/api/auth.py:198-226 | Changing the password takes an unexpired reset token, stores the password, and closes every session of that user, for good, and of nobody else. |
| AccountTheorems.IssuedUserMatches | src/modules/auth/tokens.py:203-217 | For an issued session token the user mismatch never fires; it is refused exactly when the session is not live or the user inactive. |
| AccountTheorems.NewSessionOpens | src/modules/auth/tokens.py:135-178 | The pair of a new session opens it until its whole-second expiries, and neither token serves as the other. |
| AccountTheorems.RefreshedPairOpens | src/modules/auth/tokens.py:250-269 | The pair a refresh answers with opens the session until its whole-second expiries, and neither token serves as the other. |
| AccountTheorems.SignInMeans | src/modules/auth/backend.py:214-245 | Signing in opens a session exactly for an active user with the email and the password, under a free id; a refusal changes no table. |
| AccountTheorems.StrangerRefused | src/modules/auth/backend.py:214-273 | Nobody signs in with an email no user has. |
| AccountTheorems.WebLoginMeans | src/modules/auth/backend.py:265-292 | The cookie login asks for the password only; its session lasts the configured time and accepts no refresh token. |
| AccountTheorems.InactiveUserRefused | src/modules/auth/tokens.py:203-217 | While a user is inactive no token opens a session of theirs. |
| AccountTheorems.ActivationRestores | src/modules/admin/views.py:71 | Deactivating a user and activating them again leaves every table as it was. |
| AccountTheorems.ResetLinkNames | src/modules/api/auth.py:182-196 | A link is sent exactly when an active user has the email, and its token names that user until the whole-second expiry. |
| AccountTheorems.ResetLinkWorks | src/modules/api/auth.py:182-226 | In every later run the link changes that user's password, and only theirs, exactly until it expires and while the user is active. |
| AccountTheorems.InviteWorksOnce | src/modules/api/auth.py:131-169 | An invitation token registers at most one user over every run, even when its row is renewed. |
| AccountTheorems.SignUpMeans | src/modules/api/auth.py:131-169 | A sign-up registers somebody exactly when nobody has the email and an unused, unexpired invitation for it carries the token; otherwise it changes no table. |
| AccountTheorems.InviteLetsIn | src/modules/api/auth.py:268-307 | An invitation lets its own email in, with its token, until it expires, and no other email. |
| AccountHandlers.TokenPayload.Encode | src/modules/auth/tokens.py:74-97 | Refines the encoding and records the expiry in the payload. |
| AccountHandlers.AccountApi.CreateUserSession | src/modules/auth/tokens.py:162-178 | Keeps accounts coherent; opens a session exactly under an unused id, active and storing the refresh token answered, and changes no other. |
| AccountHandlers.AccountApi.AuthenticateRefreshToken | src/modules/auth/tokens.py:220-247 | Accepts, check by check, only an unexpired token stored with its live session, for an active user. |
| AccountHandlers.AccountApi.RefreshUserSession | src/modules/auth/tokens.py:250-269 | Keeps accounts coherent; replaces the stored token in that session alone without its expiry going back, and answers with an access token of that session; a refused refresh changes no session and issues nothing. |
| AccountHandlers.AccountApi.SignUp | src/modules/api/auth.py:131-169 | Keeps accounts coherent; whoever is registered used an invitation nobody had used, and a used one registers nobody; the registration stays when the session fails. |
| AccountHandlers.AccountApi.ResetPassword | src/modules/api/auth.py:182-196 | Keeps accounts coherent; issues a token exactly when an active user has the email, and changes no table. |
| AccountHandlers.AccountApi.ChangePassword | src/modules/api/auth.py:198-226 | Keeps accounts coherent; deactivates exactly the sessions of the token's user, stores the password in that user's row alone, or changes nothing. |
| AccountHandlers.AccountApi.SignOut | src/modules/api/auth.py:232-244 | Keeps accounts coherent; deactivates exactly the session named. |
| AccountHandlers.AccountApi.CreateInvite | src/modules/api/auth.py:268-307 | Keeps accounts coherent; refused exactly when a user has the email; otherwise one invitation has it, unused and under the new token. |
| AccountHandlers.AccountApi.UpdateMe | src/modules/api/auth.py:321-343 | Keeps accounts coherent; conflicts exactly on a non-empty email of another user; otherwise changes that user's row alone. |
| DurationProofs.ChaptersUndoFormatTime | src/modules/db/models/podcasts.py:181-304 | Every time that can be printed is read back by the chapter list, negative ones included. |
| DurationProofs.HumanUndoesFormatTime | src/modules/utils/ffmpeg.py:361-377 | Every time that can be printed is read back by the duration reader, whose sum in floats never rounds there. |
| DurationProofs.HumanUndoesFormatDurationIff | src/constants.py:119-127 | Below sixteen times 2^53 the duration reader undoes the duration printer exactly on numbers that are not negative and are doubles. |
| DurationProofs.HumanUndoesFormatDurationUpTo | src/modules/utils/ffmpeg.py:361-377 | So it does for every number of seconds from zero to 2^53. |
| DurationProofs.FirstNotReadBack | src/modules/utils/ffmpeg.py:372-377 | 2^53 + 1 is read back as 2^53. |
| DurationProofs.ReadBackIsDouble | src/modules/utils/ffmpeg.py:372-377 | However large, only what is not negative and a double can be read back. |
| DurationProofs.NotEveryDoubleIsReadBack | src/modules/utils/ffmpeg.py:372-377 | Beyond the bound a double exists that is not, for the product of its hours is rounded. |
| DurationProofs.PrintedStaysExact | src/modules/utils/ffmpeg.py:372-377 | Every duration printed from a number up to 2^53 meets the condition of the exact reading. |
| DurationProofs.PrintedTimeStaysExact | src/modules/db/models/podcasts.py:181-195 | So does every printed time. |
| DurationProofs.ChaptersReadFormatDurationIff | src/modules/db/models/podcasts.py:290-304 | The chapter list reads a printed duration back exactly from an hour on, and zero. |
| DurationProofs.PrintingUndoesReadingIff | src/modules/db/models/podcasts.py:181-304 | A text survives reading and printing exactly when it is canonical and in range. |
| Durations.HumanTimeToSec | src/modules/utils/ffmpeg.py:361-377 | The reader sums in floats, as its specification does; while no product and no partial sum rounds, the result is Horner's rule over the fields. |
| Durations.SumFields | src/modules/utils/ffmpeg.py:372-377 | Its loop, from the last field on with growing powers of sixty, refines the recursive sum of doubles, and fails exactly on a bad field. |
| Durations.Round | src/modules/utils/ffmpeg.py:375-375 | To the nearest integer, ties to even. |
| TimeTexts.FractionIsRounded | src/modules/utils/ffmpeg.py:372-377 | A decimal fraction, with a sign and white space around it, is read as the nearest integer, ties to even. |
| TimeTexts.RoundedOnce | src/modules/utils/ffmpeg.py:375-375 | There is only one such integer. |
| Doubles.DoubleMeans | src/modules/utils/ffmpeg.py:372-377 | A whole number of 53 and k more bits becomes the nearest multiple of 2^k, and of two equally near the even multiple. |
| TimeTexts.ClockIsRead | src/modules/utils/ffmpeg.py:361-377 | Hours, minutes and seconds with a fraction, and any number of commas after them, are read as their number of seconds, rounded. |
| TimeTexts.ClockExamples | src/modules/utils/ffmpeg.py:361-370 | So are the documented examples. |
| TimeTexts.DigitsOfMeans | src/modules/utils/ffmpeg.py:375-375 | Digits with single underscores between digits are a literal, read as the digits in order; nothing else is. |
| TimeTexts.SignedInt | src/modules/db/models/podcasts.py:300-302 | A whole number is read with its sign, whatever white space is around it, up to 4300 digits. |
| TimeTexts.StampsAreCut | src/modules/db/models/podcasts.py:293-298 | A chapter boundary that is a number is cut towards zero; none and an empty text count as zero. |
| TimeTexts.StampIsRead | src/modules/db/models/podcasts.py:300-302 | Three whole numbers between colons are hours, minutes and seconds. |
| TimeTexts.StampIsZero | src/modules/db/models/podcasts.py:300-305 | Every other text is zero. |
| TimeTexts.DurationLikeTime | src/constants.py:119-127 | A duration is printed like a chapter time, without the hours when there are none. |
| TimeTexts.TimeRange | src/modules/db/models/podcasts.py:181-186 | Exactly the seconds of a `timedelta` are printed as a time. |
| Base64.DecodeUndoesEncode | src/modules/services/encryption.py:47-82 | The lenient decoder undoes the encoder for all byte strings. |
| Base64.EncodedAlphabet | src/modules/services/encryption.py:47-50 | Encoded text uses the alphabet and the pad only. |
| Base64.EncodeExamples | src/modules/services/encryption.py:47-50 | The encoder gives the texts of the standard for its test vectors. |
| Base64.OtherCharsSkipped | src/modules/services/encryption.py:77-82 | A character that is neither symbol nor pad makes no difference to the decoder. |
| Base64.SymbolsWithoutPads | src/modules/services/encryption.py:77-82 | Symbols without pads decode exactly in groups of four. |
| Secrets.ParseUndoesPrint | src/modules/services/encryption.py:47-82 | The record parser undoes the record printer for all byte strings. |
| Secrets.DecryptUndoesEncrypt | src/modules/services/encryption.py:38-63 | Decryption undoes encryption under any two key settings that share the first 32 characters. |
| Secrets.EncryptMeans | src/modules/services/encryption.py:26-50 | The key is the setting's first 32 characters, a shorter setting is refused, and the text names the algorithm and carries nonce, sealed data and tag. |
| Secrets.DecryptRefuses | src/modules/services/encryption.py:52-76 | A short key is refused first, then every text with another number of parts or another prefix. |
| Secrets.VerifyAcceptsIff | src/modules/auth/hashers.py:43-94 | Exactly when a stored password record verifies, for all settings, passwords and valid salts. |
| Secrets.OtherSaltRaises | src/modules/auth/hashers.py:43-74 | On a salt that is not ASCII, the right password under the same settings makes verification raise. |
| Secrets.SomeOtherSalt | src/modules/auth/hashers.py:43-74 | Such as a salt of one accented letter. |
| Secrets.RightPasswordVerifies | src/modules/auth/hashers.py:43-74 | With fixed settings naming the hasher's own algorithm, the right password verifies for every ASCII salt without the separator. |
| Secrets.GeneratedSaltVerifies | src/modules/auth/hashers.py:43-54 | Without a salt of its own a record takes the generated one, and verifies. |
| Secrets.DefaultRecord | src/modules/auth/hashers.py:36-54 | With neither setting given, the record names the hasher's own algorithm and iterations. |
| Secrets.AcceptsOwnRecordsOnly | src/modules/auth/hashers.py:43-74 | Of all texts that could be stored, exactly the records written for this password under these settings, on an ASCII salt, are accepted. |
| Statistics.OuterJoinTotals | src/modules/db/repositories.py:378-419 | The grouped outer join gives each podcast the totals of its own episodes, none counted twice, and zeros without episodes. |
| Statistics.GroupIsOwnRows | src/modules/db/repositories.py:378-391 | The joins do not multiply a podcast's rows. |
| Statistics.InnerJoinTotals | src/modules/db/repositories.py:680-708 | The inner join totals the selected episodes that have an audio row. |
| Statistics.QueriesAgree | src/modules/db/repositories.py:360-427 | The two queries agree on size always, and on count exactly when every episode has an audio row. |
| Statistics.TotalIsSumOverPodcasts | src/modules/db/repositories.py:680-708 | Without a podcast the query answers the sum of its answers for all podcasts. |
| Presigning.CacheHoldsLastWrite | src/modules/services/storage.py:199-228 | Over any interleaving the cache holds exactly the last link written to a path and not evicted since. |
| Presigning.HeldLinkIsServed | src/modules/services/storage.py:199-228 | The link last written is served exactly until its time to live has passed; without one, or after an eviction, none is. |
| Presigning.ServedLinkLasts | src/modules/services/storage.py:199-228 | Every link served at any time in any run is for the requested path and good for more than the link lifetime less the cache lifetime less its storing delay. |
| Presigning.ServedLinksOpenIff | src/modules/services/storage.py:206-226 | No run serves an expired link exactly when cache lifetime and delay fit into the link lifetime. |
| Presigning.LinkStore.GetPresignedUrl | src/modules/services/storage.py:199-228 | One request: the cached link, a new one that is stored, or none, with the same bound on each. |

## Left out

- S3, Redis, yt-dlp, ffmpeg and the mail server are outcomes or abstract maps; HTTP routing, pagination, templates, schemas, the admin views and logging are not modelled.
- The access token column of file rows: copying and feed creation leave it unset, and its uniqueness would hide the logic of interest.
- The feed branch for a podcast without a feed row, which reads an id before it is assigned: podcasts enter the model together with their feed's row.
- The implicit owner filter of the repositories, which returns nothing for models that have only an owner column; explicit filters are modelled.
- Titles, descriptions, authors, chapters and cookies of episodes, and the removal of special symbols.
- Live progress, job queues, and the eventual end of a cancellation: a cancelled queued job never runs, so no progress is claimed.
- Unlinking local files on deletion, temporary files, and the cover task's failed branch, which violates a constraint and is rolled back.
- Overlapping transactions: the unit of work is modelled for sessions one after the other.
- Edits by administrators, except archiving an episode and activating or deactivating a user; an administrator can create a second user with a taken email address.
- Long-lived API tokens, registered addresses, the signature algorithm, and the cookie login's own authentication; the session it opens is modelled.
- Filters and paging of the podcast statistics; the statistics of one podcast and of all are compared without them.
- Machine.PublishedIsPlayable: stated for runs of careful steps, because without the condition it is false, as `PrefixClash.ClashBreaksPlayable` shows; `Machine.StepKeepsIff` makes the condition exact for each step.
- Durations.ParseFloat: exponents, infinities, non-ASCII digits and the rounding of a fractional decimal text to binary are not modelled.
- DurationProofs.HumanUndoesFormatDurationIff: stated below 16 * 2^53 seconds, because beyond it being a double is necessary, as `DurationProofs.ReadBackIsDouble` says, but not sufficient, as `DurationProofs.NotEveryDoubleIsReadBack` shows; the largest exponent of a double is not modelled.
- FeedRuns.TrackedFeedsAreFresh: the set is an upper bound where a worker run crashes, for then every podcast with an episode of the source whose feed upload is not refused counts as stale, sent or not.
- TimeTexts.FractionIsRounded: the decimal text is taken as an exact number; a fraction within a rounding error of a half can be read as its neighbour.
- Durations.ParseInt: non-ASCII digits and white space are not modelled; printing a number of more than 4300 digits, which Python refuses, is not modelled either.
- DurationProofs.ChaptersReadFormatDurationIff: stated below 3600 * 10^12 seconds, because from 4300 digits of hours on the integer reader gives up.
- Secrets.Cipher: the cipher, PBKDF2 and UTF-8 are parameters with laws; that a wrong tag is rejected is not claimed.
- Presigning.LinkStore: one request runs at a time on the object; overlapping requests are covered by the lemmas about runs of cache operations.
