# Voice-cloning REST service: upload validation, artifact naming and cleanup

This Dafny project models the request and artifact lifecycle of the Flask
voice-cloning service in `service.py`. The service has two POST handlers:

- `post_file` (`/audio/create`) takes a transcript and an audio sample that share a base filename.
- `examplePage` (`/audio/example/obama|ramsay|hawking`) takes a transcript only.

Each handler runs four steps:

1. It checks the uploaded filenames.
2. It saves the uploads into the shared directory `audio/data`.
3. It runs the synthesis pipeline. The model keeps only the files each stage
   creates or reads.
4. It starts a thread that later deletes the request's files with `clean` or
   `cleanExample`, and then answers with `<key>_out.mp3` as an attachment.

Modules:

- `Names`: the job key `filename.split('.')[0]`, `os.path.join` against the
  `dataPath + "/" + name` paths, and the artifact suffixes `.txt`, `.mp3`,
  `.wav`, `_out.wav`, `_out.mp3`.
- `Store`: the data directory as a class `DataDir` whose `files` is the set of
  names it holds. It has `Save` (`open(path, "wb")` with `file.save` or
  `wavfile.write`, which raises for a name the file system refuses), `Remove`
  (`os.remove`, which fails on a missing file) and `Transcode` (an ffmpeg call:
  the target appears when the source exists and the target can be created).
  `Openable` says which names `open` accepts: not `""`, `.` or `..`, no NUL,
  and at most 255 bytes in UTF-8. The functions `AfterRemoval` and
  `RemovedCount` describe a sequence of unguarded `os.remove` calls.
- `Cleanup`: `clean` and `cleanExample` as sequences of `Remove` calls that stop
  at the first missing file. Also a tolerant variant, see Findings.
- `Handlers`: the handlers as methods on a `DataDir`. `post_file` keeps its
  save loop, which can abort or raise after saving the first upload. Each method is
  proved equal to a functional description (`CreateRequest`, `ExampleRequest`),
  and the lemmas state the rejection and success properties.
- `Lifecycle`: a handler followed by the cleanup it schedules. It holds the
  proofs that a matching request followed by its cleanup leaves the directory
  as it was.

Responses are values, not HTTP:

- `Rejected(code, message)` for `abort`.
- `Crashed(name)` for an uncaught exception opening `name`, which Flask
  answers with 500. The file is missing when it is read, or cannot be created
  when it is written.
- `Attachment(directory, name)` for `send_from_directory`.

The code has none of the following safeguards, and the model follows the code:

- There is no per-key lock.
- Uploads are not written atomically.
- Deletion does not tolerate missing files, so a second `clean` of a key fails
  at once (`CleanTwiceRemovesNothing`).
- Nothing is cleaned after a failed request (`CreateCrashes`).
- Failures are not tagged by pipeline stage. A missing file or a name that
  cannot be opened is an uncaught exception.

## Model

| member | source | states |
|---|---|---|
| Names.KeyOf | service.py:239 | the key is the prefix of the filename before its first `.`: it contains no `.`, a filename without `.` is its own key, and otherwise a `.` follows the key |
| Names.KeyOfUnique | service.py:208 | any dot-free prefix followed by `.` or the end of the filename is the key, so the key is fully determined |
| Names.KeyOfArtifact | service.py:239-241 | `key + suffix` with a dot-free key and a suffix starting with `.` (such as `key.txt`, `key.mp3`) has key `key` |
| Names.KeyOfKeepsNoSlash | service.py:203-208 | a filename accepted by the `/` check yields a key without `/`, so every derived artifact stays in the data directory |
| Names.NoSlashInArtifact | service.py:125-129 | `key + suffix` has no `/` when neither part has one |
| Names.JoinIsPathOf | service.py:250 | `os.path.join(dataPath, name)` for a name without `/` is `dataPath + "/" + name`, the path the rest of the code reads and writes |
| Names.PathOfInjective | service.py:98 | distinct names give distinct paths under `dataPath`, so the directory is modelled by names |
| Names.ArtifactNamesDiffer | service.py:155-159 | artifacts of one key with different suffixes have different names |
| Store.AfterRemoval | service.py:155-159 | sequential `os.remove` calls only delete names from the list, and only files that were present |
| Store.RemovedCount | service.py:155-159 | the number of files removed before `os.remove` raises is at most the length of the list |
| Store.RemovalStopsAtFirstMissing | service.py:155-159 | for distinct names, removal deletes exactly the names before the first missing one, which was absent, and every later name keeps its presence |
| Store.RemovalOfPresentNames | service.py:155-159 | when every name is present, all are removed and nothing else |
| Store.Utf8LengthAppend | service.py:253 | the byte length of `key + suffix` is the byte length of the key plus that of the suffix |
| Store.DataDir.Save | service.py:250 | opening the name for writing succeeds exactly when it is `Openable`; then exactly that name is added, otherwise nothing changes |
| Store.DataDir.Remove | service.py:155 | `os.remove` succeeds exactly when the file exists and leaves the directory without it |
| Store.DataDir.Transcode | service.py:128-129 | ffmpeg adds the target exactly when the source exists and the target can be created |
| Cleanup.CleanNamesDistinct | service.py:155-159 | the five names of `clean` and the three of `cleanExample` are pairwise distinct |
| Cleanup.Clean | service.py:151-161 | `clean` removes `key.txt`, `key.mp3`, `key.wav`, `key_out.mp3`, `key_out.wav` in that order, stops at the first missing one, and finishes only when it removed all five |
| Cleanup.CleanExample | service.py:140-148 | `cleanExample` removes `key.txt`, `key_out.mp3`, `key_out.wav` in order with the same stop-at-missing behaviour |
| Cleanup.CleanTwiceRemovesNothing | service.py:155-156 | after one `clean`, a second `clean` of the same key removes nothing: it raises at once |
| Cleanup.CleanTolerant | service.py:283 | corrected cleanup: removes every artifact name of the key that is present and nothing else |
| Handlers.CheckCreateUploads | service.py:234-243 | accepted exactly when there are two uploads with equal keys; otherwise refused with the count message, or with the mismatch message followed directly by file 0's key |
| Handlers.FirstUnsaved | service.py:245-250 | the save loop stops at the first upload whose name contains `/` or cannot be opened; every upload before it was saved |
| Handlers.FirstUnsavedIs | service.py:246-250 | that stopping index is unique |
| Handlers.ArtifactOpenable | service.py:250-258 | every artifact of a NUL-free key whose `_out.wav` name fits 255 bytes can be opened |
| Handlers.OutputsOpenTogether | service.py:253-258 | when `key_out.wav` can be written, ffmpeg can also create `key_out.mp3` |
| Handlers.ReceivedListing | service.py:228-232 | the `receivedFiles` loop builds the listing of all filenames, each followed by two spaces |
| Handlers.PostFile | service.py:226-265 | `post_file` answers and leaves the directory exactly as `CreateRequest` describes, saving uploads one by one in its loop until a `/` aborts or an `open` raises |
| Handlers.RunVoiceCloning | service.py:124-137 | decoding `key.mp3` to `key.wav` and loading `key.wav` (a missing file crashes) behave as `VoiceCloning` |
| Handlers.RunSynthesis | service.py:97-101 | opening `key.txt` (a missing file crashes), writing `key_out.wav` (a name that cannot be opened crashes), encoding `key_out.mp3` and attaching it behave as `Synthesize` |
| Handlers.ExamplePage | service.py:188-222 | `examplePage` answers and leaves the directory exactly as `ExampleRequest` describes, including a crash when the upload or `key_out.wav` cannot be opened |
| Handlers.CreateRejectsCount | service.py:234-237 | a count other than 2 gives 400 with "The service requires a .mp3 and a .txt file" and writes nothing |
| Handlers.CreateRejectsMismatch | service.py:239-243 | different keys give 400 with "All files must have the same name" plus file 0's key, and write nothing |
| Handlers.CreateRejectsSubdirectory | service.py:245-250 | a `/` in file 0 gives 400 with nothing written; a `/` only in file 1 gives 400 after file 0 was saved, or a crash with nothing written when file 0 cannot be opened |
| Handlers.CreateRejectedExactly | service.py:234-250 | a create request is rejected (always with 400) exactly when the count or the pairing check fails, or the loop meets a `/` before a name that cannot be opened |
| Handlers.CreateSucceeded | service.py:252-265 | a successful create had two saveable uploads of one dot- and slash-free key whose `key_out.wav` could be written; the attachment is `key_out.mp3` in `dataPath`; `key.txt` was present; the request added exactly the uploads, the decoded `key.wav` and the two outputs |
| Handlers.CreateCrashes | service.py:245-258 | a crash on file 0 writes nothing; a crash on file 1 leaves only file 0 saved; once both are saved, the crash is on `key.wav`, `key.txt` or `key_out.wav` and the uploads stay |
| Handlers.ExampleOutcomes | service.py:196-222 | the example route rejects a count other than 1 and a name with `/`, writing nothing; an upload that cannot be opened crashes with nothing written; a later crash (on `key.txt` or `key_out.wav`) leaves only the upload; a success attaches `key_out.mp3` and adds exactly the upload and the two outputs |
| Lifecycle.ServeCreate | service.py:260-265 | `post_file` followed, on success, by the `clean` it schedules, as `AfterCreate` |
| Lifecycle.ServeExample | service.py:217-222 | `examplePage` followed, on success, by the `cleanExample` it schedules, as `AfterExample` |
| Lifecycle.PlainKeyArtifactsOpenable | service.py:250-258 | all five artifact names of a plain key (no `.`, `/` or NUL, short enough) can be opened |
| Lifecycle.CleanNamesElems | service.py:155-159 | the set of names `clean` removes is exactly the five artifacts |
| Lifecycle.PairPassesChecks | service.py:234-250 | uploads `key.txt` and `key.mp3` (or `.wav`), in either order, pass the checks and are both saved |
| Lifecycle.CreatePairSucceeds | service.py:250-258 | such a pair succeeds on any directory and leaves it holding, besides what it held, exactly the uploads, `key.wav`, `key_out.wav`, `key_out.mp3` |
| Lifecycle.CreateThenCleanRestores | service.py:250-262 | create with `key.txt` + `key.mp3` and then `clean` removes all five names and leaves the directory as before the request |
| Lifecycle.ExampleThenCleanRestores | service.py:144-146 | example with `key.txt` and then `cleanExample` removes all three names and leaves the directory as before the request |
| Lifecycle.CleanStopsAtMp3 | service.py:155-157 | on a directory holding `key.txt`, `key.wav` and the two outputs but no `key.mp3`, `clean` removes only `key.txt` and then raises |
| Lifecycle.WavPairLeavesArtifacts | service.py:155-159 | as written: create with `key.txt` + `key.wav` succeeds, `clean` removes only `key.txt`, and `key.wav`, `key_out.wav`, `key_out.mp3` remain |
| Lifecycle.TolerantCleanRestores | service.py:281-283 | with the corrected cleanup, create with `key.txt` + `key.mp3` or `key.wav` and then cleanup leaves the directory as before |
| Lifecycle.ServeCreateTolerant | service.py:260-262 | `post_file` followed by the corrected cleanup removes the key's artifacts from what the request left |

## Left out

- Model loading and inference are left out: `setup`, `examplesSetup`,
  `exampleEmbed`, the Flowtron, WaveGlow and encoder calls, and the embedding
  argument that the three example routes pass to `examplePage`. They are
  foreign ML libraries on GPU tensors. Each stage is modelled only by the file
  it reads or writes.
- Audio normalisation (`audio / np.abs(audio).max()`) is floating-point
  numerics. File contents are not modelled at all, only file names.
- ffmpeg is an external process. It is modelled as "the target exists
  afterwards exactly when the source existed". Not modelled:
  - failure on a corrupt input;
  - the overwrite prompt when the target already exists;
  - the `time.sleep(5)` after the decode.
- The cleanup thread and its 10-second delay are concurrency and timing. A
  cleanup is modelled as a separate call made after the handler returns. So
  two requests that share a key and interleave in the shared directory are not
  modelled.
- Flask routing, `request.files`, `abort` and `send_from_directory` are
  modelled as a `Response` value, not HTTP. Uploads are a sequence of
  filenames.
- The `print` calls are I/O. The text of the `receivedFiles` listing is
  modelled, but printing it is not.
- `listExamples`, `home` and `getIp` are static pages with no logic.
- `open` is modelled to fail only on the names the file system refuses by
  their text: `""`, `.`, `..`, a NUL character, and more than 255 bytes in
  UTF-8. Other OS errors are not modelled: permissions, a full disk, a name
  that is an existing directory, and a path over PATH_MAX.

## Findings

| source | as written | input that shows it | evidently intended | confidence | as-written member | corrected member |
|---|---|---|---|---|---|---|
| service.py:155-159 | `clean` calls `os.remove` on `key.mp3` with no existence guard. The home page (service.py:281) invites a `.wav` sample instead of `.mp3`, and for a `.wav` upload no `key.mp3` is ever created. | uploads `greeting.txt` and `greeting.wav` on a directory without `greeting` artifacts. The request succeeds. `clean` removes `greeting.txt`, then raises on `greeting.mp3`, so `greeting.wav`, `greeting_out.wav` and `greeting_out.mp3` stay. | all data of the request is deleted after processing (service.py:283): cleanup removes each artifact that exists and skips a missing one | medium, not executed | Lifecycle.WavPairLeavesArtifacts | Cleanup.CleanTolerant (property proved in Lifecycle.TolerantCleanRestores) |
