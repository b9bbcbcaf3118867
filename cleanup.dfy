/**
 * The deferred cleanup of a request's artifacts: `clean` after a create
 * request, `cleanExample` after an example request. The service runs them on a
 * thread after a delay; here each is a separate call made after the handler
 * has returned.
 */
module Cleanup {
  import opened Names
  import opened Store

  /** The names `clean` removes, in the order it removes them. */
  function CleanNames(key: string): seq<string>
  {
    [key + TranscriptSuffix, key + AudioSuffix, key + WaveSuffix, key + OutputSuffix, key + OutputWaveSuffix]
  }

  /** The names `cleanExample` removes, in the order it removes them. */
  function CleanExampleNames(key: string): seq<string>
  {
    [key + TranscriptSuffix, key + OutputSuffix, key + OutputWaveSuffix]
  }

  /** Each cleanup list names every artifact once. */
  lemma CleanNamesDistinct(key: string)
    ensures Distinct(CleanNames(key))
    ensures Distinct(CleanExampleNames(key))
  {
    var suffixes := [TranscriptSuffix, AudioSuffix, WaveSuffix, OutputSuffix, OutputWaveSuffix];
    forall i, j | 0 <= i < j < 5 ensures key + suffixes[i] != key + suffixes[j] {
      ArtifactNamesDiffer(key, suffixes[i], suffixes[j]);
    }
    assert CleanNames(key) == seq(5, i requires 0 <= i < 5 => key + suffixes[i]);
    assert CleanExampleNames(key) == [CleanNames(key)[0], CleanNames(key)[3], CleanNames(key)[4]];
  }

  /**
   * `clean(delay, path)`: `os.remove` of the five artifacts in order. A missing
   * file raises and ends the cleanup thread, so the names after it stay;
   * `finished` tells whether the end of the function was reached.
   */
  method Clean(dir: DataDir, key: string) returns (finished: bool)
    modifies dir
    ensures dir.files == AfterRemoval(old(dir.files), CleanNames(key))
    ensures finished <==> RemovedCount(old(dir.files), CleanNames(key)) == |CleanNames(key)|
  {
    ghost var names := CleanNames(key);
    finished := false;
    var removed := dir.Remove(key + TranscriptSuffix);
    if !removed { return; }
    assert AfterRemoval(old(dir.files), names) == AfterRemoval(dir.files, names[1..]);
    assert RemovedCount(old(dir.files), names) == 1 + RemovedCount(dir.files, names[1..]);
    ghost var before := dir.files;
    removed := dir.Remove(key + AudioSuffix);
    if !removed { return; }
    assert AfterRemoval(before, names[1..]) == AfterRemoval(dir.files, names[2..]);
    assert RemovedCount(before, names[1..]) == 1 + RemovedCount(dir.files, names[2..]);
    before := dir.files;
    removed := dir.Remove(key + WaveSuffix);
    if !removed { return; }
    assert AfterRemoval(before, names[2..]) == AfterRemoval(dir.files, names[3..]);
    assert RemovedCount(before, names[2..]) == 1 + RemovedCount(dir.files, names[3..]);
    before := dir.files;
    removed := dir.Remove(key + OutputSuffix);
    if !removed { return; }
    assert AfterRemoval(before, names[3..]) == AfterRemoval(dir.files, names[4..]);
    assert RemovedCount(before, names[3..]) == 1 + RemovedCount(dir.files, names[4..]);
    before := dir.files;
    removed := dir.Remove(key + OutputWaveSuffix);
    if !removed { return; }
    assert AfterRemoval(before, names[4..]) == AfterRemoval(dir.files, names[5..]);
    assert RemovedCount(before, names[4..]) == 1 + RemovedCount(dir.files, names[5..]);
    finished := true;
  }

  /**
   * `cleanExample(delay, path)`: `os.remove` of the transcript and the two
   * outputs in order, stopping at the first missing one.
   */
  method CleanExample(dir: DataDir, key: string) returns (finished: bool)
    modifies dir
    ensures dir.files == AfterRemoval(old(dir.files), CleanExampleNames(key))
    ensures finished <==> RemovedCount(old(dir.files), CleanExampleNames(key)) == |CleanExampleNames(key)|
  {
    ghost var names := CleanExampleNames(key);
    finished := false;
    var removed := dir.Remove(key + TranscriptSuffix);
    if !removed { return; }
    assert AfterRemoval(old(dir.files), names) == AfterRemoval(dir.files, names[1..]);
    assert RemovedCount(old(dir.files), names) == 1 + RemovedCount(dir.files, names[1..]);
    ghost var before := dir.files;
    removed := dir.Remove(key + OutputSuffix);
    if !removed { return; }
    assert AfterRemoval(before, names[1..]) == AfterRemoval(dir.files, names[2..]);
    assert RemovedCount(before, names[1..]) == 1 + RemovedCount(dir.files, names[2..]);
    before := dir.files;
    removed := dir.Remove(key + OutputWaveSuffix);
    if !removed { return; }
    assert AfterRemoval(before, names[2..]) == AfterRemoval(dir.files, names[3..]);
    assert RemovedCount(before, names[2..]) == 1 + RemovedCount(dir.files, names[3..]);
    finished := true;
  }

  /**
   * Cleanup has no existence guard, so it is not idempotent: once `clean` has
   * run, a second `clean` of the same key raises at its first name and removes
   * nothing.
   */
  lemma CleanTwiceRemovesNothing(files: set<string>, key: string)
    ensures RemovedCount(AfterRemoval(files, CleanNames(key)), CleanNames(key)) == 0
    ensures AfterRemoval(AfterRemoval(files, CleanNames(key)), CleanNames(key))
         == AfterRemoval(files, CleanNames(key))
  {
    var names := CleanNames(key);
    CleanNamesDistinct(key);
    RemovalStopsAtFirstMissing(files, names);
    if RemovedCount(files, names) == 0 {
      assert names[0] !in AfterRemoval(files, names);
    } else {
      assert names[0] in Elems(names[..RemovedCount(files, names)]);
    }
  }

  /**
   * Cleanup as the home page promises it (service.py:283, "all data is
   * deleted"): every artifact of the key is removed when present and a missing
   * one is skipped.
   */
  method CleanTolerant(dir: DataDir, key: string)
    modifies dir
    ensures dir.files == old(dir.files) - Elems(CleanNames(key))
  {
    var names := CleanNames(key);
    for i := 0 to |names|
      invariant dir.files == old(dir.files) - Elems(names[..i])
    {
      if names[i] in dir.files {
        var _ := dir.Remove(names[i]);
      }
      assert names[..i + 1] == names[..i] + [names[i]];
    }
    assert names[..|names|] == names;
  }
}
