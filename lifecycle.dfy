/**
 * A request followed by its deferred cleanup. A successful handler starts the
 * cleanup thread just before it returns; the thread's delay is not modelled,
 * so the cleanup is the next call on the directory after the handler.
 */
module Lifecycle {
  import opened Names
  import opened Store
  import opened Cleanup
  import opened Handlers

  /** The directory after a create request and, when it succeeded, `clean` of its key. */
  function AfterCreate(files: set<string>, uploads: seq<string>): set<string>
  {
    var outcome := CreateRequest(files, uploads);
    if outcome.response.Attachment? then AfterRemoval(outcome.files, CleanNames(KeyOf(uploads[0])))
    else outcome.files
  }

  /** The directory after an example request and, when it succeeded, `cleanExample` of its key. */
  function AfterExample(files: set<string>, uploads: seq<string>): set<string>
  {
    var outcome := ExampleRequest(files, uploads);
    if outcome.response.Attachment? then AfterRemoval(outcome.files, CleanExampleNames(KeyOf(uploads[0])))
    else outcome.files
  }

  /** `post_file` and then, when it answered with the attachment, the `clean` it scheduled. */
  method ServeCreate(dir: DataDir, uploads: seq<string>) returns (response: Response)
    modifies dir
    ensures response == CreateRequest(old(dir.files), uploads).response
    ensures dir.files == AfterCreate(old(dir.files), uploads)
  {
    response := PostFile(dir, uploads);
    if response.Attachment? {
      var _ := Clean(dir, KeyOf(uploads[0]));
    }
  }

  /** `examplePage` and then, when it answered with the attachment, the `cleanExample` it scheduled. */
  method ServeExample(dir: DataDir, uploads: seq<string>) returns (response: Response)
    modifies dir
    ensures response == ExampleRequest(old(dir.files), uploads).response
    ensures dir.files == AfterExample(old(dir.files), uploads)
  {
    response := ExamplePage(dir, uploads);
    if response.Attachment? {
      var _ := CleanExample(dir, KeyOf(uploads[0]));
    }
  }

  /** The uploads of a create request are a transcript and an `ext` audio file of `key`, in either order. */
  predicate UploadedPair(uploads: seq<string>, key: string, ext: string)
  {
    uploads == [key + TranscriptSuffix, key + ext] || uploads == [key + ext, key + TranscriptSuffix]
  }

  /**
   * A key whose artifacts the create request accepts and can write: no '.', so
   * it is its own key, no '/', no NUL, and short enough that `<key>_out.wav`
   * fits NameMax bytes.
   */
  predicate PlainKey(key: string)
  {
    '.' !in key && '/' !in key && '\0' !in key && Utf8Length(key) + |OutputWaveSuffix| <= NameMax
  }

  /** Every artifact name of a plain key can be opened. */
  lemma PlainKeyArtifactsOpenable(key: string)
    requires PlainKey(key)
    ensures Openable(key + TranscriptSuffix) && Openable(key + AudioSuffix) && Openable(key + WaveSuffix)
    ensures Openable(key + OutputSuffix) && Openable(key + OutputWaveSuffix)
  {
    ArtifactSuffixesPlain();
    ArtifactOpenable(key, TranscriptSuffix);
    ArtifactOpenable(key, AudioSuffix);
    ArtifactOpenable(key, WaveSuffix);
    ArtifactOpenable(key, OutputSuffix);
    ArtifactOpenable(key, OutputWaveSuffix);
  }

  /** The five artifact names of a key, as a set. */
  lemma CleanNamesElems(key: string)
    ensures Elems(CleanNames(key))
         == {key + TranscriptSuffix, key + AudioSuffix, key + WaveSuffix, key + OutputSuffix, key + OutputWaveSuffix}
  {
    var names := CleanNames(key);
    assert names[0] in names && names[1] in names && names[2] in names;
    assert names[3] in names && names[4] in names;
  }

  /** A pair of uploads of one plain key passes every check of `post_file` and is saved whole. */
  lemma PairPassesChecks(key: string, ext: string, uploads: seq<string>)
    requires PlainKey(key) && ext in {AudioSuffix, WaveSuffix}
    requires UploadedPair(uploads, key, ext)
    ensures CheckCreateUploads(uploads) == Accepted(key)
    ensures FirstUnsaved(uploads) == 2
    ensures Elems(uploads[..2]) == {key + TranscriptSuffix, key + ext}
  {
    KeyOfArtifact(key, TranscriptSuffix);
    KeyOfArtifact(key, ext);
    NoSlashInArtifact(key, TranscriptSuffix);
    NoSlashInArtifact(key, ext);
    PlainKeyArtifactsOpenable(key);
    FirstUnsavedIs(uploads, 2);
    assert uploads[..2] == uploads;
  }

  /**
   * The create request for a pair `key.txt`, `key<ext>` with `ext` one of
   * `.mp3` and `.wav` succeeds on any directory, and leaves it holding the
   * two uploads, `key.wav` (decoded when `key.mp3` was uploaded), and the two
   * outputs, besides what it held before.
   */
  lemma CreatePairSucceeds(files: set<string>, key: string, ext: string, uploads: seq<string>)
    requires PlainKey(key) && ext in {AudioSuffix, WaveSuffix}
    requires UploadedPair(uploads, key, ext)
    ensures CreateRequest(files, uploads).response == Attachment(DataPath, key + OutputSuffix)
    ensures CreateRequest(files, uploads).files
         == files + {key + TranscriptSuffix, key + ext, key + WaveSuffix, key + OutputWaveSuffix, key + OutputSuffix}
  {
    var txt, audio, wav := key + TranscriptSuffix, key + AudioSuffix, key + WaveSuffix;
    PairPassesChecks(key, ext, uploads);
    var saved := files + {txt, key + ext};
    assert CreateRequest(files, uploads) == VoiceCloning(saved, key);
    PlainKeyArtifactsOpenable(key);
    var decoded := Transcoded(saved, audio, wav);
    if ext == AudioSuffix {
      assert decoded == saved + {wav};
    } else {
      assert decoded == saved;
    }
    assert wav in decoded && txt in decoded;
  }

  /**
   * A create request with `key.txt` and `key.mp3` followed by its `clean`
   * leaves the directory as it was before the request: the request adds
   * exactly the five names `clean` removes, and `clean` removes all five.
   */
  lemma CreateThenCleanRestores(files: set<string>, key: string, uploads: seq<string>)
    requires PlainKey(key)
    requires UploadedPair(uploads, key, AudioSuffix)
    requires files !! Elems(CleanNames(key))
    ensures CreateRequest(files, uploads).response == Attachment(DataPath, key + OutputSuffix)
    ensures RemovedCount(CreateRequest(files, uploads).files, CleanNames(key)) == 5
    ensures AfterCreate(files, uploads) == files
  {
    CreatePairSucceeds(files, key, AudioSuffix, uploads);
    KeyOfArtifact(key, TranscriptSuffix);
    KeyOfArtifact(key, AudioSuffix);
    var after := CreateRequest(files, uploads).files;
    CleanNamesDistinct(key);
    assert Elems(CleanNames(key))
        == {key + TranscriptSuffix, key + AudioSuffix, key + WaveSuffix, key + OutputSuffix, key + OutputWaveSuffix};
    RemovalOfPresentNames(after, CleanNames(key));
  }

  /**
   * An example request with `key.txt` followed by its `cleanExample` leaves
   * the directory as it was before the request.
   */
  lemma ExampleThenCleanRestores(files: set<string>, key: string)
    requires PlainKey(key)
    requires files !! Elems(CleanExampleNames(key))
    ensures ExampleRequest(files, [key + TranscriptSuffix]).response == Attachment(DataPath, key + OutputSuffix)
    ensures RemovedCount(ExampleRequest(files, [key + TranscriptSuffix]).files, CleanExampleNames(key)) == 3
    ensures AfterExample(files, [key + TranscriptSuffix]) == files
  {
    var upload := key + TranscriptSuffix;
    KeyOfArtifact(key, TranscriptSuffix);
    NoSlashInArtifact(key, TranscriptSuffix);
    PlainKeyArtifactsOpenable(key);
    var after := ExampleRequest(files, [upload]).files;
    assert after == files + {upload, key + OutputWaveSuffix, key + OutputSuffix};
    CleanNamesDistinct(key);
    assert Elems(CleanExampleNames(key)) == {upload, key + OutputSuffix, key + OutputWaveSuffix};
    RemovalOfPresentNames(after, CleanExampleNames(key));
  }

  /**
   * On a directory that held none of the key's artifacts and now holds
   * `key.txt`, `key.wav` and the two outputs, `clean` removes `key.txt` and
   * raises at the missing `key.mp3`.
   */
  lemma CleanStopsAtMp3(files: set<string>, key: string, after: set<string>)
    requires files !! Elems(CleanNames(key))
    requires after == files + {key + TranscriptSuffix, key + WaveSuffix, key + OutputWaveSuffix, key + OutputSuffix}
    ensures RemovedCount(after, CleanNames(key)) == 1
    ensures AfterRemoval(after, CleanNames(key)) == files + {key + WaveSuffix, key + OutputWaveSuffix, key + OutputSuffix}
  {
    var names := CleanNames(key);
    CleanNamesDistinct(key);
    assert names[0] in after;
    assert names[1] !in after by {
      assert key + AudioSuffix in Elems(names);
      ArtifactNamesDiffer(key, AudioSuffix, TranscriptSuffix);
      ArtifactNamesDiffer(key, AudioSuffix, WaveSuffix);
      ArtifactNamesDiffer(key, AudioSuffix, OutputWaveSuffix);
      ArtifactNamesDiffer(key, AudioSuffix, OutputSuffix);
    }
    assert RemovedCount(after, names) == 1;
    assert AfterRemoval(after, names) == after - {names[0]};
    assert names[0] in Elems(names) && names[0] !in files;
  }

  /**
   * As written, a create request with `key.txt` and `key.wav` (which the
   * service's home page invites) succeeds, but its `clean` removes only
   * `key.txt` and then raises at the missing `key.mp3`: the uploaded
   * `key.wav` and both outputs stay in the directory.
   */
  lemma WavPairLeavesArtifacts(files: set<string>, key: string, uploads: seq<string>)
    requires PlainKey(key)
    requires UploadedPair(uploads, key, WaveSuffix)
    requires files !! Elems(CleanNames(key))
    ensures CreateRequest(files, uploads).response == Attachment(DataPath, key + OutputSuffix)
    ensures RemovedCount(CreateRequest(files, uploads).files, CleanNames(key)) == 1
    ensures AfterCreate(files, uploads) == files + {key + WaveSuffix, key + OutputWaveSuffix, key + OutputSuffix}
  {
    CreatePairSucceeds(files, key, WaveSuffix, uploads);
    KeyOfArtifact(key, TranscriptSuffix);
    KeyOfArtifact(key, WaveSuffix);
    CleanStopsAtMp3(files, key, CreateRequest(files, uploads).files);
  }

  /**
   * With the tolerant cleanup, a create request for `key.txt` and either
   * `key.mp3` or `key.wav` followed by cleanup leaves the directory as it was.
   */
  lemma TolerantCleanRestores(files: set<string>, key: string, ext: string, uploads: seq<string>)
    requires PlainKey(key) && ext in {AudioSuffix, WaveSuffix}
    requires UploadedPair(uploads, key, ext)
    requires files !! Elems(CleanNames(key))
    ensures CreateRequest(files, uploads).response == Attachment(DataPath, key + OutputSuffix)
    ensures CreateRequest(files, uploads).files - Elems(CleanNames(key)) == files
  {
    CreatePairSucceeds(files, key, ext, uploads);
    assert Elems(CleanNames(key))
        == {key + TranscriptSuffix, key + AudioSuffix, key + WaveSuffix, key + OutputSuffix, key + OutputWaveSuffix};
  }

  /** `post_file` with the tolerant cleanup in place of `clean`. */
  method ServeCreateTolerant(dir: DataDir, uploads: seq<string>) returns (response: Response)
    modifies dir
    ensures response == CreateRequest(old(dir.files), uploads).response
    ensures dir.files == if response.Attachment?
                         then CreateRequest(old(dir.files), uploads).files - Elems(CleanNames(KeyOf(uploads[0])))
                         else CreateRequest(old(dir.files), uploads).files
  {
    response := PostFile(dir, uploads);
    if response.Attachment? {
      CleanTolerant(dir, KeyOf(uploads[0]));
    }
  }
}
