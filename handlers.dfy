/**
 * The two POST handlers of the service: `post_file` behind /audio/create and
 * `examplePage` behind /audio/example/{obama,ramsay,hawking}. Each validates
 * the uploaded filenames, saves the uploads into the data directory, runs the
 * synthesis pipeline (whose only modelled effect is the files it reads and
 * creates), starts its cleanup thread and answers with the generated
 * `<key>_out.mp3` as an attachment.
 */
module Handlers {
  import opened Names
  import opened Store

  /** What a handler answers with. */
  datatype Response =
    | Rejected(code: int, message: string)         // flask.abort(code, message)
    | Crashed(file: string)                        // an uncaught error opening `file`: Flask answers 500
    | Attachment(directory: string, name: string)  // send_from_directory(directory, name, as_attachment=True)

  /** A response together with the data directory it leaves behind. */
  datatype Outcome = Outcome(response: Response, files: set<string>)

  const CreateCountMessage: string := "The service requires a .mp3 and a .txt file"
  const ExampleCountMessage: string := "The service requires a .txt file"
  const MismatchMessage: string := "All files must have the same name"
  const SubdirectoryMessage: string := "Subdirectories are not allowed"

  /** Verdict of the checks `post_file` runs before it writes anything. */
  datatype Checked = Accepted(key: string) | Refused(message: string)

  /**
   * The count and pairing checks of `post_file`: exactly two uploads whose keys
   * agree. The refusal message is the mismatch text followed directly (with no
   * separator) by the key of the first upload.
   */
  function CheckCreateUploads(uploads: seq<string>): (c: Checked)
    ensures c.Accepted? <==> |uploads| == 2 && KeyOf(uploads[0]) == KeyOf(uploads[1])
    ensures c.Accepted? ==> c.key == KeyOf(uploads[0]) && c.key == KeyOf(uploads[1])
    ensures |uploads| != 2 ==> c == Refused(CreateCountMessage)
    ensures |uploads| == 2 && KeyOf(uploads[0]) != KeyOf(uploads[1]) ==>
              c == Refused(MismatchMessage + KeyOf(uploads[0]))
  {
    if |uploads| != 2 then Refused(CreateCountMessage)
    else
      var shared := KeyOf(uploads[0]);
      if shared != KeyOf(uploads[1]) then Refused(MismatchMessage + shared)
      else Accepted(shared)
  }

  /** An upload the save loop gets past: no '/' (the check) and a name `open` accepts. */
  predicate Saveable(upload: string)
  {
    '/' !in upload && Openable(upload)
  }

  /**
   * Where the save loop of `post_file` stops: the index of the first upload
   * whose name contains '/' (400) or cannot be opened (500), or the number of
   * uploads when every one is saved. Every upload before that index has been
   * saved when the loop stops.
   */
  function FirstUnsaved(uploads: seq<string>): (n: nat)
    ensures n <= |uploads|
    ensures forall i :: 0 <= i < n ==> Saveable(uploads[i])
    ensures n < |uploads| ==> !Saveable(uploads[n])
  {
    if uploads == [] || !Saveable(uploads[0]) then 0
    else 1 + FirstUnsaved(uploads[1..])
  }

  /**
   * `audioFromEmbeds(key, ...)` followed by the handler's own steps: the
   * transcript `key.txt` is opened (a missing one raises), the generated audio
   * is written to `key_out.wav` (a name that cannot be opened raises), ffmpeg
   * encodes it to `key_out.mp3`, and that file is sent back.
   */
  function Synthesize(files: set<string>, key: string): Outcome
  {
    if key + TranscriptSuffix !in files then Outcome(Crashed(key + TranscriptSuffix), files)
    else if !Openable(key + OutputWaveSuffix) then Outcome(Crashed(key + OutputWaveSuffix), files)
    else
      var written := files + {key + OutputWaveSuffix};
      Outcome(Attachment(DataPath, key + OutputSuffix),
              Transcoded(written, key + OutputWaveSuffix, key + OutputSuffix))
  }

  /**
   * `run_voiceCloning(key)` and what follows it in `post_file`: ffmpeg decodes
   * `key.mp3` to `key.wav`, the encoder loads `key.wav` (a missing one raises),
   * then synthesis continues as in `Synthesize`.
   */
  function VoiceCloning(files: set<string>, key: string): Outcome
  {
    var decoded := Transcoded(files, key + AudioSuffix, key + WaveSuffix);
    if key + WaveSuffix !in decoded then Outcome(Crashed(key + WaveSuffix), decoded)
    else Synthesize(decoded, key)
  }

  /** The whole of `post_file` on the directory `files`. */
  function CreateRequest(files: set<string>, uploads: seq<string>): Outcome
  {
    match CheckCreateUploads(uploads)
    case Refused(message) => Outcome(Rejected(400, message), files)
    case Accepted(key) =>
      var n := FirstUnsaved(uploads);
      var saved := files + Elems(uploads[..n]);
      if n < |uploads| then
        if '/' in uploads[n] then Outcome(Rejected(400, SubdirectoryMessage), saved)
        else Outcome(Crashed(uploads[n]), saved)
      else VoiceCloning(saved, key)
  }

  /** The whole of `examplePage` on the directory `files`. */
  function ExampleRequest(files: set<string>, uploads: seq<string>): Outcome
  {
    if |uploads| != 1 then Outcome(Rejected(400, ExampleCountMessage), files)
    else if '/' in uploads[0] then Outcome(Rejected(400, SubdirectoryMessage), files)
    else if !Openable(uploads[0]) then Outcome(Crashed(uploads[0]), files)
    else Synthesize(files + {uploads[0]}, KeyOf(uploads[0]))
  }

  /** The debugging line both handlers print: every filename followed by two spaces. */
  function Listing(uploads: seq<string>): string
  {
    if uploads == [] then ""
    else Listing(uploads[..|uploads| - 1]) + uploads[|uploads| - 1] + "  "
  }

  /** The `receivedFiles` loop: the listing is built one filename at a time. */
  method ReceivedListing(uploads: seq<string>) returns (received: string)
    ensures received == Listing(uploads)
  {
    received := "";
    for i := 0 to |uploads|
      invariant received == Listing(uploads[..i])
    {
      assert uploads[..i + 1][..i] == uploads[..i];
      received := received + uploads[i] + "  ";
    }
    assert uploads[..|uploads|] == uploads;
  }

  /**
   * `post_file`: the count check, the pairing check, then the loop that saves
   * each upload unless its name contains '/' (an abort) or cannot be opened (an
   * exception), either of which stops it with the earlier uploads already
   * saved; then the voice-cloning pipeline.
   */
  method PostFile(dir: DataDir, uploads: seq<string>) returns (response: Response)
    modifies dir
    ensures Outcome(response, dir.files) == CreateRequest(old(dir.files), uploads)
  {
    var received := ReceivedListing(uploads);
    if |uploads| != 2 {
      return Rejected(400, CreateCountMessage);
    }
    var shared := KeyOf(uploads[0]);
    if shared != KeyOf(uploads[1]) {
      return Rejected(400, MismatchMessage + shared);
    }
    for i := 0 to |uploads|
      invariant forall j :: 0 <= j < i ==> Saveable(uploads[j])
      invariant dir.files == old(dir.files) + Elems(uploads[..i])
    {
      if '/' in uploads[i] {
        FirstUnsavedIs(uploads, i);
        return Rejected(400, SubdirectoryMessage);
      }
      var saved := dir.Save(uploads[i]);
      if !saved {
        FirstUnsavedIs(uploads, i);
        return Crashed(uploads[i]);
      }
      assert uploads[..i + 1] == uploads[..i] + [uploads[i]];
    }
    FirstUnsavedIs(uploads, |uploads|);
    assert uploads[..|uploads|] == uploads;
    response := RunVoiceCloning(dir, shared);
  }

  /** `run_voiceCloning` and the rest of `post_file` after the uploads are saved. */
  method RunVoiceCloning(dir: DataDir, key: string) returns (response: Response)
    modifies dir
    ensures Outcome(response, dir.files) == VoiceCloning(old(dir.files), key)
  {
    dir.Transcode(key + AudioSuffix, key + WaveSuffix);
    if key + WaveSuffix !in dir.files {
      return Crashed(key + WaveSuffix);
    }
    response := RunSynthesis(dir, key);
  }

  /** `audioFromEmbeds` and the handler's write, encode and attachment steps. */
  method RunSynthesis(dir: DataDir, key: string) returns (response: Response)
    modifies dir
    ensures Outcome(response, dir.files) == Synthesize(old(dir.files), key)
  {
    if key + TranscriptSuffix !in dir.files {
      return Crashed(key + TranscriptSuffix);
    }
    var written := dir.Save(key + OutputWaveSuffix);
    if !written {
      return Crashed(key + OutputWaveSuffix);
    }
    dir.Transcode(key + OutputWaveSuffix, key + OutputSuffix);
    response := Attachment(DataPath, key + OutputSuffix);
  }

  /**
   * `examplePage`: exactly one upload, saved unless its name contains '/' or
   * cannot be opened, then synthesis from the transcript named by its key.
   */
  method ExamplePage(dir: DataDir, uploads: seq<string>) returns (response: Response)
    modifies dir
    ensures Outcome(response, dir.files) == ExampleRequest(old(dir.files), uploads)
  {
    var received := ReceivedListing(uploads);
    if |uploads| != 1 {
      return Rejected(400, ExampleCountMessage);
    }
    var upload := uploads[0];
    if '/' in upload {
      return Rejected(400, SubdirectoryMessage);
    }
    var saved := dir.Save(upload);
    if !saved {
      return Crashed(upload);
    }
    response := RunSynthesis(dir, KeyOf(upload));
  }

  /** The artifact suffixes are printable ASCII: one byte per character, and no NUL. */
  predicate PlainSuffix(suffix: string)
  {
    4 <= |suffix| <= |OutputWaveSuffix|
    && forall i :: 0 <= i < |suffix| ==> 0 < suffix[i] as int < 0x80
  }

  /**
   * An artifact of a key without NUL whose `_out.wav` name fits NameMax bytes
   * can be opened: the artifact suffixes are ASCII and at most as long as
   * `_out.wav`.
   */
  lemma ArtifactOpenable(key: string, suffix: string)
    requires PlainSuffix(suffix)
    requires '\0' !in key && Utf8Length(key) + |OutputWaveSuffix| <= NameMax
    ensures Openable(key + suffix)
  {
    AsciiUtf8Length(suffix);
    Utf8LengthAppend(key, suffix);
    forall i | 0 <= i < |key + suffix| ensures (key + suffix)[i] != '\0' {
      if i < |key| {
        assert (key + suffix)[i] == key[i];
      } else {
        assert (key + suffix)[i] == suffix[i - |key|];
      }
    }
  }

  /** Each of the five artifact suffixes is a plain suffix. */
  lemma ArtifactSuffixesPlain()
    ensures PlainSuffix(TranscriptSuffix) && PlainSuffix(AudioSuffix) && PlainSuffix(WaveSuffix)
    ensures PlainSuffix(OutputSuffix) && PlainSuffix(OutputWaveSuffix)
  {
  }

  /** Whenever `<key>_out.wav` can be written, so can `<key>_out.mp3`, which has as many bytes. */
  lemma OutputsOpenTogether(key: string)
    requires Openable(key + OutputWaveSuffix)
    ensures Openable(key + OutputSuffix)
  {
    Utf8LengthAppend(key, OutputWaveSuffix);
    ArtifactSuffixesPlain();
    AsciiUtf8Length(OutputWaveSuffix);
    assert '\0' !in key by {
      forall i | 0 <= i < |key| ensures key[i] != '\0' {
        assert (key + OutputWaveSuffix)[i] == key[i];
      }
    }
    ArtifactOpenable(key, OutputSuffix);
  }

  /** `FirstUnsaved` is determined by its contract: the first index whose upload cannot be saved. */
  lemma FirstUnsavedIs(uploads: seq<string>, n: nat)
    requires n <= |uploads|
    requires forall j :: 0 <= j < n ==> Saveable(uploads[j])
    requires n < |uploads| ==> !Saveable(uploads[n])
    ensures FirstUnsaved(uploads) == n
  {
  }

  /** Every create request with a number of uploads other than two is refused and writes nothing. */
  lemma CreateRejectsCount(files: set<string>, uploads: seq<string>)
    requires |uploads| != 2
    ensures CreateRequest(files, uploads) == Outcome(Rejected(400, CreateCountMessage), files)
  {
  }

  /**
   * Two uploads with different keys are refused before anything is written,
   * with the mismatch message followed by the first upload's key.
   */
  lemma CreateRejectsMismatch(files: set<string>, uploads: seq<string>)
    requires |uploads| == 2 && KeyOf(uploads[0]) != KeyOf(uploads[1])
    ensures CreateRequest(files, uploads)
         == Outcome(Rejected(400, MismatchMessage + KeyOf(uploads[0])), files)
  {
  }

  /**
   * The '/' check runs inside the save loop: a '/' in the first name aborts
   * with nothing written; a '/' in the second name only aborts after the first
   * upload has been saved, and only when saving the first did not raise.
   */
  lemma CreateRejectsSubdirectory(files: set<string>, uploads: seq<string>)
    requires |uploads| == 2 && KeyOf(uploads[0]) == KeyOf(uploads[1])
    requires '/' in uploads[0] || '/' in uploads[1]
    ensures '/' in uploads[0] ==>
              CreateRequest(files, uploads) == Outcome(Rejected(400, SubdirectoryMessage), files)
    ensures '/' !in uploads[0] && Openable(uploads[0]) ==>
              CreateRequest(files, uploads) == Outcome(Rejected(400, SubdirectoryMessage), files + {uploads[0]})
    ensures '/' !in uploads[0] && !Openable(uploads[0]) ==>
              CreateRequest(files, uploads) == Outcome(Crashed(uploads[0]), files)
  {
    if !Saveable(uploads[0]) {
      FirstUnsavedIs(uploads, 0);
      assert uploads[..0] == [];
    } else {
      FirstUnsavedIs(uploads, 1);
      assert uploads[..1] == [uploads[0]];
    }
  }

  /**
   * A create request is refused (always with 400) exactly when the count or
   * the pairing check fails, or the save loop meets a '/' before any upload
   * that cannot be opened.
   */
  lemma CreateRejectedExactly(files: set<string>, uploads: seq<string>)
    ensures CreateRequest(files, uploads).response.Rejected? <==>
              (|uploads| != 2 || KeyOf(uploads[0]) != KeyOf(uploads[1])
               || '/' in uploads[0] || (Openable(uploads[0]) && '/' in uploads[1]))
    ensures CreateRequest(files, uploads).response.Rejected? ==>
              CreateRequest(files, uploads).response.code == 400
  {
    if |uploads| == 2 && KeyOf(uploads[0]) == KeyOf(uploads[1]) {
      if !Saveable(uploads[0]) {
        FirstUnsavedIs(uploads, 0);
      } else if !Saveable(uploads[1]) {
        FirstUnsavedIs(uploads, 1);
      } else {
        FirstUnsavedIs(uploads, 2);
        var saved := files + Elems(uploads[..2]);
        assert !VoiceCloning(saved, KeyOf(uploads[0])).response.Rejected?;
      }
    }
  }

  /**
   * A create request that answers with an attachment had two uploads that
   * could be saved, sharing a key free of '.' and '/' whose `key_out.wav` could
   * be written; the attachment is `<key>_out.mp3` in the data directory; the
   * transcript read for synthesis, `<key>.txt`, was uploaded or already
   * present; and the request added exactly the uploads, the decoded `<key>.wav`
   * when `<key>.mp3` was there, and the two outputs.
   */
  lemma CreateSucceeded(files: set<string>, uploads: seq<string>)
    requires CreateRequest(files, uploads).response.Attachment?
    ensures |uploads| == 2 && Saveable(uploads[0]) && Saveable(uploads[1])
    ensures KeyOf(uploads[0]) == KeyOf(uploads[1])
    ensures '/' !in KeyOf(uploads[0]) && '.' !in KeyOf(uploads[0])
    ensures Openable(KeyOf(uploads[0]) + OutputWaveSuffix)
    ensures CreateRequest(files, uploads).response == Attachment(DataPath, KeyOf(uploads[0]) + OutputSuffix)
    ensures KeyOf(uploads[0]) + TranscriptSuffix in files + Elems(uploads)
    ensures var key := KeyOf(uploads[0]);
            CreateRequest(files, uploads).files
            == Transcoded(files + Elems(uploads), key + AudioSuffix, key + WaveSuffix)
               + {key + OutputWaveSuffix, key + OutputSuffix}
  {
    var key := KeyOf(uploads[0]);
    CreateRejectedExactly(files, uploads);
    assert FirstUnsaved(uploads) == 2;
    KeyOfKeepsNoSlash(uploads[0]);
    FirstUnsavedIs(uploads, 2);
    assert uploads[..2] == uploads;
    ArtifactNamesDiffer(key, TranscriptSuffix, WaveSuffix);
    OutputsOpenTogether(key);
  }

  /**
   * How a create request crashes. An upload that cannot be opened crashes the
   * save loop, with the uploads before it saved. Once both uploads are saved,
   * the crash is a missing `<key>.wav` or `<key>.txt`, or a `<key>_out.wav`
   * that cannot be written, and the uploads stay in the directory: the cleanup
   * thread is only started on success.
   */
  lemma CreateCrashes(files: set<string>, uploads: seq<string>)
    requires CreateRequest(files, uploads).response.Crashed?
    ensures |uploads| == 2 && KeyOf(uploads[0]) == KeyOf(uploads[1]) && '/' !in uploads[0]
    ensures !Openable(uploads[0]) ==>
              CreateRequest(files, uploads) == Outcome(Crashed(uploads[0]), files)
    ensures Openable(uploads[0]) && !Saveable(uploads[1]) ==>
              CreateRequest(files, uploads) == Outcome(Crashed(uploads[1]), files + {uploads[0]})
    ensures Saveable(uploads[0]) && Saveable(uploads[1]) ==>
              files + Elems(uploads) <= CreateRequest(files, uploads).files
              && CreateRequest(files, uploads).response.file
                 in {KeyOf(uploads[0]) + WaveSuffix, KeyOf(uploads[0]) + TranscriptSuffix,
                     KeyOf(uploads[0]) + OutputWaveSuffix}
  {
    CreateRejectedExactly(files, uploads);
    if !Saveable(uploads[0]) {
      FirstUnsavedIs(uploads, 0);
      assert uploads[..0] == [];
    } else if !Saveable(uploads[1]) {
      FirstUnsavedIs(uploads, 1);
      assert uploads[..1] == [uploads[0]];
    } else {
      FirstUnsavedIs(uploads, 2);
      assert uploads[..2] == uploads;
    }
  }

  /**
   * `examplePage` refuses a count other than one and a name with '/', writing
   * nothing; an upload that cannot be opened crashes with nothing written;
   * otherwise it saves exactly that upload and either crashes on the transcript
   * or the output wave, or answers with `<key>_out.mp3` having added only the
   * upload and the two outputs.
   */
  lemma ExampleOutcomes(files: set<string>, uploads: seq<string>)
    ensures |uploads| != 1 ==>
              ExampleRequest(files, uploads) == Outcome(Rejected(400, ExampleCountMessage), files)
    ensures |uploads| == 1 && '/' in uploads[0] ==>
              ExampleRequest(files, uploads) == Outcome(Rejected(400, SubdirectoryMessage), files)
    ensures |uploads| == 1 && '/' !in uploads[0] && !Openable(uploads[0]) ==>
              ExampleRequest(files, uploads) == Outcome(Crashed(uploads[0]), files)
    ensures ExampleRequest(files, uploads).response.Crashed? && Openable(uploads[0]) ==>
              ExampleRequest(files, uploads).files == files + {uploads[0]}
              && ExampleRequest(files, uploads).response.file
                 in {KeyOf(uploads[0]) + TranscriptSuffix, KeyOf(uploads[0]) + OutputWaveSuffix}
    ensures ExampleRequest(files, uploads).response.Attachment? ==>
              var key := KeyOf(uploads[0]);
              && Saveable(uploads[0]) && '/' !in key && Openable(key + OutputWaveSuffix)
              && ExampleRequest(files, uploads).response == Attachment(DataPath, key + OutputSuffix)
              && key + TranscriptSuffix in files + {uploads[0]}
              && ExampleRequest(files, uploads).files
                 == files + {uploads[0], key + OutputWaveSuffix, key + OutputSuffix}
  {
    if |uploads| == 1 && '/' !in uploads[0] {
      KeyOfKeepsNoSlash(uploads[0]);
      if Openable(KeyOf(uploads[0]) + OutputWaveSuffix) {
        OutputsOpenTogether(KeyOf(uploads[0]));
      }
    }
  }
}
