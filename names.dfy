/**
 * Names of the voice-cloning service: the job key derived from an uploaded
 * filename, the artifact names built from it, and the paths under the data
 * directory where every upload and every generated file lives.
 */
module Names {

  /** The shared directory that holds every upload and every generated file. */
  const DataPath: string := "audio/data"

  /** Artifact suffixes appended to a job key. */
  const TranscriptSuffix: string := ".txt"
  const AudioSuffix: string := ".mp3"
  const WaveSuffix: string := ".wav"
  const OutputWaveSuffix: string := "_out.wav"
  const OutputSuffix: string := "_out.mp3"

  /**
   * The job key of an uploaded filename, `filename.split('.')[0]`: the text
   * before the first '.', or the whole filename when it has no '.'.
   */
  function KeyOf(filename: string): (key: string)
    ensures key <= filename
    ensures '.' !in key
    ensures '.' !in filename ==> key == filename
    ensures |key| < |filename| ==> filename[|key|] == '.'
  {
    if filename == [] || filename[0] == '.' then []
    else [filename[0]] + KeyOf(filename[1..])
  }

  /**
   * The key is the ONLY prefix without '.' that is followed by a '.' or by the
   * end of the filename, so any such prefix is the key.
   */
  lemma KeyOfUnique(filename: string, prefix: string)
    requires prefix <= filename && '.' !in prefix
    requires |prefix| == |filename| || filename[|prefix|] == '.'
    ensures KeyOf(filename) == prefix
  {
  }

  /** A filename made of a dot-free key and a suffix starting with '.' has that key. */
  lemma KeyOfArtifact(key: string, suffix: string)
    requires '.' !in key
    requires |suffix| > 0 && suffix[0] == '.'
    ensures KeyOf(key + suffix) == key
  {
    assert (key + suffix)[|key|] == '.';
    KeyOfUnique(key + suffix, key);
  }

  /** The key is a prefix of the filename, so a filename without '/' gives a key without '/'. */
  lemma KeyOfKeepsNoSlash(filename: string)
    requires '/' !in filename
    ensures '/' !in KeyOf(filename)
  {
    var key := KeyOf(filename);
    forall i | 0 <= i < |key| ensures key[i] != '/' {
      assert key[i] == filename[i];
    }
  }

  /** A '/' in an artifact name built from key and suffix comes from one of the two. */
  lemma NoSlashInArtifact(key: string, suffix: string)
    requires '/' !in key && '/' !in suffix
    ensures '/' !in key + suffix
  {
    forall i | 0 <= i < |key + suffix| ensures (key + suffix)[i] != '/' {
      if i < |key| { assert (key + suffix)[i] == key[i]; }
      else { assert (key + suffix)[i] == suffix[i - |key|]; }
    }
  }

  /** `os.path.join(directory, name)` with one component, as POSIX Python computes it. */
  function Join(directory: string, name: string): string
  {
    if |name| > 0 && name[0] == '/' then name
    else if directory == [] || directory[|directory| - 1] == '/' then directory + name
    else directory + "/" + name
  }

  /** `dataPath + "/" + name`, the path under which every artifact is read and written. */
  function PathOf(name: string): string
  {
    DataPath + "/" + name
  }

  /**
   * Saving an upload at `os.path.join(dataPath, filename)` reaches the same path
   * as the handlers' `dataPath + "/" + ...` concatenations, once '/' is excluded.
   */
  lemma JoinIsPathOf(name: string)
    requires '/' !in name
    ensures Join(DataPath, name) == PathOf(name)
  {
    if |name| > 0 {
      assert name[0] in name;
    }
  }

  /** Different names are different paths: a directory entry is identified by its name. */
  lemma PathOfInjective(a: string, b: string)
    requires PathOf(a) == PathOf(b)
    ensures a == b
  {
    var n := |DataPath| + 1;
    assert a == PathOf(a)[n..];
    assert b == PathOf(b)[n..];
  }

  /** Artifacts of one key with different suffixes have different names. */
  lemma ArtifactNamesDiffer(key: string, s: string, t: string)
    requires s != t
    ensures key + s != key + t
  {
    assert (key + s)[|key|..] == s;
    assert (key + t)[|key|..] == t;
  }
}
