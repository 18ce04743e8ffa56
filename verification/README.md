# Flask music site: storage core in Dafny

This project models the storage core of a small Flask music-sharing site. It covers the following operations:

- **Upload and ingestion.** An uploaded track's file name is checked against the extension allow-list. The upload is then decoded, its duration and file name are recorded, and it is transcoded into a stream MP3 and a leading preview clip. The three variants go to the configured storage mode:
  - `postgres`: blob columns;
  - `s3`: one object key per variant under a fresh uuid;
  - `local`: one file per variant under its own uuid.
- **Retrieval.** The stream and preview routes answer with the requested variant, or with the fallback chain in `get_file_stream_response`.
- **Cleanup.** `storage_delete` runs after any exception, once the new row has been rolled back.
- **Avatars.** Each storage mode stores an avatar in its own way.
- **Social routes.** The routes that keep the follow, favorite and playlist tables, and the duplicate-email guard of registration.

## Modules

| module | file | contents |
|---|---|---|
| `Base` | `base.dfy` | bytes and `Option`. `Present` is Python truthiness of a nullable column; `Or` is `a or b`. |
| `Text` | `text.dfy` | ASCII lower-casing, last-separator splitting (`rsplit(".", 1)`), decimal rendering of ids, and the shape of a uuid hex string |
| `Config` | `config.dfy` | the configuration constants and a `Settings` value for one deployment |
| `Models` | `models.dfy` | the track, user, follow, favorite, like, playlist and playlist-track rows |
| `Tables` | `tables.dfy` | tables without a uniqueness constraint, as sequences of rows; `RemoveFirst` is `filter_by(...).first()` followed by a delete |
| `Storage` | `storage.dfy` | how the two storage-mode dispatches read the mode string; the object bucket and file system as maps; writes and removals run in order and stop at the first that raises |
| `Naming` | `naming.dfy` | `allowed_file`, object keys, local paths and avatar names, and proofs that they never collide |
| `Ingest` | `ingest.dfy` | `process_track_upload` |
| `Retrieval` | `retrieval.dfy` | `get_file_stream_response` |
| `Cleanup` | `cleanup.dfy` | `storage_delete` |
| `Avatar` | `avatar.dfy` | `handle_avatar_upload` |
| `App` | `app.dfy` | the upload route with its rollback-and-cleanup path, and the stream and preview routes |
| `UploadProofs` | `upload_proofs.dfy` | properties that span ingestion, retrieval and cleanup |
| `Social` | `social.dfy` | `follow`, `unfollow`, `favorite`, `unfavorite`, `playlist_add_track` |
| `Accounts` | `accounts.dfy` | the duplicate-email guard of `register`, and the `likes` primary key |

### What becomes a parameter

The code has side effects and foreign calls. The model turns them into inputs, as follows:

- **Configured storage mode.** It stays a string. Ingestion and retrieval test `"postgres"`, then `"s3"`, and send everything else to local files. `storage_delete` instead tests `"local"`, then `"s3"`, and sends everything else to the postgres branch.
- **Results of `uuid4().hex`.** They are a `Uuids` record: s3 uses the first, local uses all three.
- **Result of `secure_filename`.** It is a field of the upload form.
- **Audio library.** It is a `Transcoder` whose `decode` and `exportMp3` functions are otherwise unknown. Either may fail.
- **Raising writes and removals.** They are named by a `Faults` value: the locators whose write raises, and those whose removal raises.
- **Id assigned by the flush, and whether the final commit succeeds.** Both are arguments of `App.Upload`.

## Model

| member | source | states |
|---|---|---|
| Naming.AllowedFileCharacterization | utils.py:16-17 | a file name is allowed exactly when it has a dot, nothing after its last dot is another dot, and the lower-cased text after that last dot is in the allow-list |
| Naming.AllowedFile | utils.py:16-17 | a name passes exactly when it has an extension and that lower-cased extension is in the allow-list, the same extension ingestion reads from the secured name |
| Naming.Extension | utils.py:59 | the extension is absent exactly when the name has no dot (where the source raises); when present it is the lower-cased text after a dot that has no dot after it, so it contains no dot |
| Naming.ExtensionOfDotted | utils.py:59 | the extension of a stem, a dot and a dot-free text is that text lower-cased, whatever dots the stem holds |
| Naming.NoDotRejected | utils.py:17 | a name without a dot is never allowed |
| Naming.AllowedFileIgnoresCase | utils.py:17 | two names that agree after lower-casing are both allowed or both rejected |
| Naming.AllowedExtensionAccepted | utils.py:17 | any stem followed by a dot and an allow-listed lower-case extension is accepted |
| App.DefaultsRejectExecutable | app.py:145-147 | under the base configuration an upload whose extension is "exe", in any case, is turned away: no track is added and no storage is touched |
| Storage.IngestBackend | utils.py:77-96 | ingestion takes the blob branch exactly for "postgres" and the object-store branch exactly for "s3"; any other mode writes local files |
| Storage.CleanupBackend | utils.py:166-182 | cleanup takes the file branch exactly for "local" and the object-store branch exactly for "s3"; any other mode takes the blob branch |
| Storage.BackendsAgreeOnKnownModes | utils.py:77-182 | the dispatch of ingestion and retrieval and the dispatch of cleanup pick the same storage exactly for the three documented mode names |
| Storage.WriteEach | utils.py:90-92 | sequential writes stop at the first that raises. Every earlier write succeeded and its key is present, the stopping write is one that raises, and no other key changes. |
| Storage.WriteEachStoresValues | utils.py:101-108 | with distinct locators, every write made before the stopping point leaves its own contents under its locator |
| Storage.WriteOutcome | utils.py:90-108 | a run of writes under a list of locators completes exactly when none of them raises, and otherwise stops at one of them that raises |
| Storage.RemoveEach | utils.py:169-171 | sequential removals stop at the first that raises. Every call before it was skipped (an absent file) or succeeded, exactly the keys before it are removed, and the remaining values are unchanged. |
| Storage.RemoveStopsAt | utils.py:169-171 | when the removal at position j raises and none before it can, the run stops exactly at j, having removed exactly the keys before it |
| Storage.RemoveEachIdempotent | utils.py:169-181 | repeating a run of removals on the store it left removes nothing more, whatever raises |
| Storage.RemoveUndoesWrite | utils.py:179-181 | removing, in order, the keys just written to fresh locations restores the store exactly, when no write or removal raises |
| Naming.KeysDistinct | utils.py:89-95 | the original, stream and preview keys of one upload are pairwise distinct |
| Naming.PathsDistinct | utils.py:98-108 | the three local files of one upload are pairwise distinct |
| Naming.KeysOfDifferentUploadsDisjoint | utils.py:89 | uploads by different owners or with different uuids never share an object key |
| Naming.PathsOfDifferentUploadsDisjoint | utils.py:98-106 | uploads by different owners or with different uuids never share a local file |
| Naming.KeyBase | utils.py:89 | a key base is "tracks/", then a digits-only owner segment that reads back as the owner id, then "/" and the uuid hex |
| Naming.LocalPath | utils.py:98-106 | a local path is the upload folder, "/", a digits-only owner segment that reads back as the owner id, "/", the uuid hex, "_" and the leaf |
| Naming.AvatarName | utils.py:29 | an avatar name is "avatar_", then a digits-only segment that reads back as the user id, then "_", the uuid hex and ".png" |
| Naming.AvatarNamesDistinct | utils.py:29 | avatar names for different users or different uuids differ |
| Text.DecimalRoundTrip | utils.py:89 | an owner id rendered in decimal reads back as the same id, so the rendering is injective |
| Ingest.DurationSeconds | utils.py:63-64 | the recorded duration is the whole number of seconds in the decoded length, truncated |
| Ingest.Head | utils.py:72 | the clip is the leading min(n, length) milliseconds of the segment, and the whole segment when it is no longer than n |
| Ingest.StoreVariants | utils.py:77-113 | the storage step succeeds exactly when none of the active mode's write locators raises, and a failure names a raising one among them. Success sets the MIME type; a raising write leaves the track unchanged. Only the active mode's store changes, and the postgres branch cannot fail. |
| Ingest.ProcessTrackUpload | utils.py:52-115 | processing fails without a dot, fails to decode exactly when decoding raises, fails to encode exactly when an export raises, and succeeds exactly when it decodes, both exports succeed and no write locator raises; a write failure names a raising locator. On success exactly the active mode's three locators are set, with the MPEG type and the secured file name; on failure no locator changes. A missing dot or a failed decode leaves the track and the storage unchanged. A failed export leaves the storage unchanged; only the duration and the file name on the track are set (utils.py:64-65). Only the active mode's store is written. |
| UploadProofs.PreviewIsLeadingClip | utils.py:71-74 | after a successful ingestion the stored preview, wherever the active mode keeps it, is the MP3 export of the leading min(preview length, track length) milliseconds of the decoded audio |
| UploadProofs.IngestRecordsDuration | utils.py:62-65 | once decoding succeeds, the duration is the decoded length in whole seconds and the file name is the secured name, however the call ends |
| UploadProofs.IngestStoresVariants | utils.py:78-111 | after a successful ingestion each variant is exactly where the mode's layout puts it, with the bytes that were encoded: blob columns, three keys under one uuid, or three files under three uuids |
| UploadProofs.RoundTripS3 | utils.py:82-95 | in s3 mode, what ingestion stores is served back: "mp3" gives the stream, "preview" the preview, and anything else the original with its audio/<ext> content type |
| UploadProofs.RoundTripLocal | utils.py:96-111 | in local mode each variant is served from the file written for it |
| UploadProofs.RoundTripPostgres | utils.py:78-81 | in postgres mode, with non-empty encodings, ingestion cannot fail and each variant is served from its own blob |
| Retrieval.Chain | utils.py:123-159 | every fallback chain has one or two roles and ends with the original, except a preview request in s3 or local mode, whose chain does not contain the original |
| Retrieval.FirstPresent | utils.py:140-142 | the chain picks the first of its roles whose column is truthy, and finds nothing exactly when no column of the chain is truthy |
| Retrieval.GetFileStreamResponse | utils.py:117-162 | the response is the one the variant's chain names: its first truthy role, fetched from the active storage. If nothing is truthy, s3 and local answer 404 and postgres returns nothing. |
| Retrieval.SendBlob | utils.py:124-130 | a blob response serves the role's blob; the stream and preview go out as audio/mpeg, and the original under its recorded file name |
| Retrieval.PreviewNeverServesOriginal | utils.py:141-142 | in s3 and local mode a preview request never resolves to the original |
| Retrieval.PostgresPreviewNeverServesStream | utils.py:126-130 | in postgres mode a preview request never resolves to the stream blob |
| Retrieval.PostgresWithoutBlobsReturnsNothing | utils.py:123-130 | in postgres mode a track with no truthy blob yields no response at all, rather than a 404 |
| Retrieval.OtherVariantsServeOriginalOnly | utils.py:143-144 | in s3 and local mode any variant other than "mp3" and "preview" resolves to the original or to nothing |
| Cleanup.StorageDelete | utils.py:164-189 | cleanup only removes locators recorded on the track and writes nothing. Each mode touches only its own storage, and postgres clears exactly the three blob columns. Without a raising removal, every recorded locator is gone. |
| Cleanup.RecordedPaths | utils.py:169 | local cleanup visits exactly the non-empty recorded file, stream and preview paths (a track has no avatar column) |
| Cleanup.RecordedKeys | utils.py:179 | s3 cleanup deletes exactly the non-empty recorded keys, at most three |
| Cleanup.FailingRemoveSkipsTheRest | utils.py:167-171 | in local mode, when removing the j-th recorded path raises, the exception ends the loop: exactly the files before it are gone and every later one stays |
| Cleanup.FailingDeleteSkipsTheRest | utils.py:179-181 | in s3 mode, when deleting the j-th recorded key raises, exactly the objects before it are gone and every later one stays |
| Cleanup.StorageDeleteIdempotent | utils.py:164-189 | a second cleanup of the same track removes nothing more, whatever removals raise |
| Cleanup.NothingRecorded | utils.py:169-179 | a track with no recorded keys or paths gives cleanup nothing to remove |
| Avatar.HandleAvatarUpload | utils.py:22-49 | postgres keeps the bytes and the bare name on the user and touches no storage. s3 fails exactly when the put of "avatars/"+name raises, and otherwise stores the PNG under that key and records the key. Every other mode fails exactly when writing folder+"/avatars/"+name raises, and otherwise writes the PNG there and records the path. Only the two avatar columns change, and a failed write changes neither the user nor the storage. |
| Avatar.AvatarLocatorRoundTrip | utils.py:33-49 | the avatar name recorded in s3 or local mode locates the stored PNG and has the documented layout |
| Models.NewTrack | models.py:64-90 | a fresh track has zero duration, the MPEG type, is public, and has no recorded file name or locator |
| App.Upload | app.py:141-166 | a disallowed name is turned away before anything changes. An allowed upload commits exactly when processing returns normally and the commit succeeds; the committed track and the storage are then as processing left them, stored in the active mode. A failed upload adds no track, names its cause, and leaves the storage as cleanup of the processed track leaves it. |
| App.TrackTitle | app.py:150 | the title is the form's title when given; otherwise the secured name without its last extension, or the whole name when it has no dot |
| App.UploadCommits | app.py:154-159 | an allowed upload that decodes, encodes and writes without raising is committed when the commit succeeds |
| App.StreamRoute | app.py:177-185 | an unknown id is a 404; otherwise the answer is the "mp3" chain's, which serves the stream when the track has one and else the original |
| App.PreviewRoute | app.py:187-190 | an unknown id is a 404; otherwise the answer is the "preview" chain's, which serves the preview when present and else the stream (s3, local) or the original (postgres) |
| UploadProofs.PartialS3WriteOrphans | app.py:154-165 | in s3 mode, when the stream or preview put raises, the upload fails, and the objects written before it are still in the bucket after cleanup |
| UploadProofs.PartialLocalWriteOrphans | app.py:154-165 | in local mode, when the stream or preview file write raises, the upload fails, and the files written before it are still on disk after cleanup |
| UploadProofs.CommitFailureRestoresBucket | app.py:158-163 | in s3 mode a failed commit after a complete ingestion to fresh keys leaves the bucket exactly as before, when no deletion raises |
| UploadProofs.CommitFailureRestoresFiles | app.py:158-163 | in local mode a failed commit after a complete ingestion to fresh files leaves the file system exactly as before, when no removal raises |
| UploadProofs.UnknownModeOrphansOnCommitFailure | app.py:158-163 | with an unrecognised mode name, ingestion writes local files but cleanup takes the postgres branch, so after a failed commit all three files stay on disk |
| UploadProofs.CommittedUploadIsServed | app.py:177-190 | once an upload is committed, the stream route serves its encoded stream and the preview route its encoded preview |
| Tables.RemoveFirst | app.py:133-135 | deleting the first matching row removes exactly one copy of it when present, and nothing otherwise |
| Tables.RemoveFirstIsEarliest | app.py:133-135 | the row removed is the earliest match, with the rows before and after it kept in order |
| Tables.RemoveFirstRemovesAll | app.py:133-135 | in a table without duplicates, deleting the first match leaves no match and no duplicates |
| Social.Follow | app.py:118-127 | an unknown user is a 404. Following yourself is refused exactly when the target is you; an existing follow is reported exactly when the pair is present. Otherwise one row is appended and the returned count is the target's follower count plus one. |
| Social.Unfollow | app.py:131-137 | an unknown user is a 404. Otherwise exactly one copy of the follow row is deleted if present, and the returned count is the target's follower count afterwards, one less than before when a row was deleted. |
| Social.FollowersAppend | app.py:127 | appending a follow row raises the follower count of exactly the followed user by one |
| Social.FollowPreservesValid | app.py:120-125 | the follow route never creates a self-follow or a duplicate pair |
| Social.UnfollowPreservesValid | app.py:133-135 | unfollow keeps the table valid and leaves no row for the pair |
| Social.FollowIdempotent | app.py:122-123 | following twice adds the row once |
| Social.UnfollowUndoesFollow | app.py:131-137 | unfollowing right after a successful follow restores the table exactly |
| Social.Favorite | app.py:213-220 | an unknown track is a 404. "already favorited" is reported exactly when the pair exists; otherwise one row is appended. |
| Social.Unfavorite | app.py:224-229 | unfavorite always answers ok and deletes exactly one copy of the pair if present |
| Social.FavoritePreservesValid | app.py:215-219 | the favorite route never creates a duplicate pair |
| Social.UnfavoriteUndoesFavorite | app.py:224-229 | unfavoriting right after a successful favorite restores the table exactly |
| Social.UnfavoritePreservesValid | app.py:224-229 | unfavorite keeps the table free of duplicates and leaves no row for the pair |
| Social.PlaylistAddTrack | app.py:262-270 | an unknown playlist is a 404. Another user's playlist is refused exactly when you are not its owner. The owner gets ok, and the pair is appended with order 0 unless already present. |
| Social.PlaylistAddPreservesValid | app.py:266-269 | adding to a playlist never creates a duplicate (playlist, track) pair |
| Social.PlaylistAddIdempotent | app.py:266-269 | adding the same track twice leaves the table as one addition does |
| Accounts.Register | app.py:58-76 | a registered email is refused exactly when an account has it. Otherwise a taken username fails at commit exactly when some account has it. Only a successful registration adds a user, with an empty bio and no avatar. |
| Accounts.RegisterPreservesUnique | models.py:17-21 | registration keeps usernames and emails unique |
| Accounts.RegisterWithTakenEmailCreatesNoUser | app.py:62-64 | a registered email is refused whatever the username, and nothing changes |
| Accounts.InsertLike | models.py:11-15 | a like row is inserted exactly when its (user, track) key is not yet present |
| Accounts.LikesStayKeyed | models.py:11-15 | however many like inserts are attempted, each (user, track) pair appears at most once |

## Left out

- Flask request handling is not modelled: routing, templates, flashes, redirects, logins, sessions, and form validation. The routes are functions of their inputs, and the form is assumed validated.
- Audio decoding, MP3 export and image thumbnailing are not modelled: `pydub` with `ffmpeg`, and `PIL`. They are uninterpreted or supplied as bytes.
- Creating the `boto3` client and creating directories (`mkdir`) are not modelled. Neither is a failure of either, which would raise before the first write.
- Reading configuration from the environment is not modelled; `forms.py` is not part of this model.
- `secure_filename` and the password hashing of `set_password` are foreign calls. Their results are parameters.
- Ingest.DurationSeconds: `int(duration_ms / 1000)` uses float division. For a non-negative length it equals integer division, which is what is modelled; float rounding on huge lengths is not.
- Text.Lower: `str.lower()` is modelled on ASCII letters only; other Unicode case mappings are not.
- Naming.LocalPath: `pathlib` joins are modelled as "/" concatenation; normalisation of an upload folder that ends in a slash is not.
- Avatar.AvatarPath: the same "/" concatenation stands for `Path(folder) / "avatars" / name`; an upload folder that ends in a slash is not normalised.
- Storage.WriteEach: a local write that raises leaves no file in the model. In the source `open(path, "wb")` creates the file before writing, so a write that raises part-way leaves an empty or partial file that no column records and cleanup never removes; UploadProofs.PartialLocalWriteOrphans counts one orphan too few.
- Cleanup.FailingRemoveSkipsTheRest: assumes that no earlier path would raise. An earlier path absent from disk is skipped whether or not it would raise; that case is covered by Storage.RemoveEach only.
- Config.Settings: a negative `PREVIEW_DURATION` is not modelled, because the preview length is a natural number.
- Ingest.ProcessTrackUpload: an exception from the final `flush` is folded into the commit-succeeds flag of `App.Upload`.
- Avatar.HandleAvatarUpload: a local write that raises leaves no file in the model. In the source `open(file_path, "wb")` creates the file before `write` raises, so an empty or partial avatar file is left that no column records.
- Avatar.HandleAvatarUpload: the final `commit` is not modelled, and neither is the commit in `storage_delete`'s postgres branch after a rollback.
- Retrieval.FetchObject: the s3 object's stored content type is always present in the model, so the "audio/mpeg" default when it is missing does not arise. A missing object raises, as `get_object` does.
- Retrieval.SendFile: `send_file` on a path is the file's bytes, with the MIME type and base name.
- The `like` and `unlike` routes are not modelled; only the primary key of the `likes` table is (Accounts.InsertLike).
- Social.PlaylistAddTrack: the foreign key on `track_id` is not checked.
- Accounts.Register: `newId` is required to be fresh, because the database assigns new ids.
- The `comment`, `playlist_create`, `playlist_view`, `search`, `settings`, `profile` and `login` routes are outside the storage and social core.
- Concurrency between requests is not modelled. Neither is the race between the duplicate check and the insert in the follow, favorite and register routes.
