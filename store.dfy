/**
 * The shared data directory. Every request of the service reads and writes
 * files directly in one directory; the directory is modelled by the set of the
 * names it holds (no request can reach a subdirectory, see Names.JoinIsPathOf).
 */
module Store {

  /** The names occurring in a sequence. */
  function Elems(names: seq<string>): set<string>
  {
    set name | name in names
  }

  /** No name occurs twice. */
  predicate Distinct(names: seq<string>)
  {
    forall i, j :: 0 <= i < j < |names| ==> names[i] != names[j]
  }

  /** The longest file name, in bytes, that the file system accepts (NAME_MAX). */
  const NameMax: nat := 255

  /** Length in bytes of a name in the UTF-8 file-system encoding. */
  function Utf8Length(name: string): nat
  {
    if name == [] then 0
    else
      var c := name[0] as int;
      (if c < 0x80 then 1 else if c < 0x800 then 2 else if c < 0x1_0000 then 3 else 4)
      + Utf8Length(name[1..])
  }

  /** The byte length of a concatenation is the sum of the byte lengths. */
  lemma {:induction false} Utf8LengthAppend(a: string, b: string)
    ensures Utf8Length(a + b) == Utf8Length(a) + Utf8Length(b)
  {
    if a != [] {
      assert (a + b)[1..] == a[1..] + b;
      assert (a + b)[0] == a[0];
      Utf8LengthAppend(a[1..], b);
    } else {
      assert a + b == b;
    }
  }

  /** A name made only of ASCII characters takes one byte per character. */
  lemma {:induction false} AsciiUtf8Length(name: string)
    requires forall i :: 0 <= i < |name| ==> name[i] as int < 0x80
    ensures Utf8Length(name) == |name|
  {
    if name != [] {
      assert forall i :: 0 <= i < |name[1..]| ==> name[1..][i] == name[i + 1];
      AsciiUtf8Length(name[1..]);
    }
  }

  /**
   * Whether `open(os.path.join(dataPath, name), "wb")` can create the file. It
   * raises for `""`, `"."` and `".."` (they name a directory), for a NUL
   * character, and for a name longer than NameMax bytes.
   */
  predicate Openable(name: string)
  {
    name != "" && name != "." && name != ".." && '\0' !in name && Utf8Length(name) <= NameMax
  }

  /**
   * Effect of `ffmpeg -i source target` on the directory. The external process
   * writes the target when the source exists and the target can be created;
   * otherwise it fails, writes nothing, and its exit status is ignored.
   */
  function Transcoded(files: set<string>, source: string, target: string): set<string>
  {
    if source in files && Openable(target) then files + {target} else files
  }

  /**
   * The directory left by calling `os.remove` on `names` in order. `os.remove`
   * has no existence guard: the first missing name raises, and the names after
   * it are never attempted.
   */
  function AfterRemoval(files: set<string>, names: seq<string>): (rest: set<string>)
    ensures rest <= files
    ensures files - rest <= Elems(names)
  {
    if names == [] || names[0] !in files then files
    else
      assert Elems(names) == {names[0]} + Elems(names[1..]) by {
        assert names == [names[0]] + names[1..];
      }
      AfterRemoval(files - {names[0]}, names[1..])
  }

  /** How many of `names` the same sequence of `os.remove` calls removes before it raises. */
  function RemovedCount(files: set<string>, names: seq<string>): (count: nat)
    ensures count <= |names|
  {
    if names == [] || names[0] !in files then 0
    else 1 + RemovedCount(files - {names[0]}, names[1..])
  }

  /**
   * Removal of distinct names proceeds exactly up to the first missing one:
   * the names before it were present and are gone, it is missing, and every
   * later name is present afterwards exactly when it was present before.
   */
  lemma {:induction false} RemovalStopsAtFirstMissing(files: set<string>, names: seq<string>)
    requires Distinct(names)
    ensures forall i :: 0 <= i < RemovedCount(files, names) ==> names[i] in files
    ensures RemovedCount(files, names) < |names| ==> names[RemovedCount(files, names)] !in files
    ensures AfterRemoval(files, names) == files - Elems(names[..RemovedCount(files, names)])
    ensures forall i :: RemovedCount(files, names) <= i < |names| ==>
              (names[i] in AfterRemoval(files, names) <==> names[i] in files)
  {
    if names == [] || names[0] !in files {
      assert names[..0] == [];
    } else {
      var tail := names[1..];
      var smaller := files - {names[0]};
      RemovalStopsAtFirstMissing(smaller, tail);
      var n := RemovedCount(files, names);
      assert n == 1 + RemovedCount(smaller, tail);
      assert names[..n] == [names[0]] + tail[..n - 1];
      assert Elems(names[..n]) == {names[0]} + Elems(tail[..n - 1]);
      forall i | 0 <= i < n ensures names[i] in files {
        if i > 0 { assert names[i] == tail[i - 1]; }
      }
      forall i | n <= i < |names|
        ensures names[i] in AfterRemoval(files, names) <==> names[i] in files
      {
        assert names[i] == tail[i - 1];
        assert names[i] != names[0];
      }
      if n < |names| {
        assert names[n] == tail[n - 1];
        assert names[n] != names[0];
      }
    }
  }

  /** When all of the distinct names are present, every one is removed and nothing else. */
  lemma RemovalOfPresentNames(files: set<string>, names: seq<string>)
    requires Distinct(names)
    requires Elems(names) <= files
    ensures RemovedCount(files, names) == |names|
    ensures AfterRemoval(files, names) == files - Elems(names)
  {
    RemovalStopsAtFirstMissing(files, names);
    assert names[..|names|] == names;
  }

  /** The data directory, which the request handlers and the cleanup functions mutate. */
  class DataDir {
    /** Names of the files currently in the directory. */
    var files: set<string>

    constructor (initial: set<string>)
      ensures files == initial
    {
      files := initial;
    }

    /**
     * `file.save(open(path, "wb"))`, `wavfile.write`: creates or overwrites the
     * file; `saved` is false exactly when opening it raises, which writes nothing.
     */
    method Save(name: string) returns (saved: bool)
      modifies this
      ensures saved <==> Openable(name)
      ensures files == if saved then old(files) + {name} else old(files)
    {
      saved := Openable(name);
      if saved {
        files := files + {name};
      }
    }

    /**
     * `os.remove`: deletes the file, or raises when it does not exist;
     * `removed` is false exactly when the call raises.
     */
    method Remove(name: string) returns (removed: bool)
      modifies this
      ensures removed <==> name in old(files)
      ensures files == old(files) - {name}
    {
      removed := name in files;
      files := files - {name};
    }

    /** `subprocess.call(['ffmpeg', '-i', source, target])`. */
    method Transcode(source: string, target: string)
      modifies this
      ensures files == Transcoded(old(files), source, target)
    {
      if source in files && Openable(target) {
        files := files + {target};
      }
    }
  }
}
