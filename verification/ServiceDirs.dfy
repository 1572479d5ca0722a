/** Service directories and the hash file that suppresses rewrites: `writeServiceConfigs` of
    src/cluster/serviceDeployment.ts. */
module ServiceDirs {
  import opened Wrappers

  /** File names and their contents. */
  type Files = map<string, string>

  /** SHA-256 over the sorted entries of a file set, taken as an injective function. */
  datatype Digest = Digest(files: Files)

  datatype Directory = Directory(files: Files, hash: Option<Digest>)

  const EMPTY_DIRECTORY := Directory(map[], None)
  const COMPOSE_FILE := "docker-compose.yml"

  /** The directories of the static services. */
  const ETCD := "_etcd"
  const HAPROXY := "_haproxy"

  /** The hash file says that exactly these files were written last, so nothing is to be done. */
  predicate UpToDate(directory: Directory, files: Files) {
    directory.hash == Some(Digest(files))
  }

  /** Writing replaces the generated files and keeps any other file of the directory. */
  function Written(directory: Directory, files: Files): Directory {
    if UpToDate(directory, files) then directory else Directory(directory.files + files, Some(Digest(files)))
  }

  predicate Holds(directory: Directory, files: Files) {
    forall name :: name in files ==> name in directory.files && directory.files[name] == files[name]
  }

  /** The stored hash describes files that are really in the directory. */
  predicate HashTruthful(directory: Directory) {
    directory.hash.Some? ==> Holds(directory, directory.hash.value.files)
  }

  /** The files that the stored hash describes exist, whatever they contain. */
  predicate NamesKept(directory: Directory) {
    directory.hash.Some? ==> directory.hash.value.files.Keys <= directory.files.Keys
  }

  /** The hash file claims the files, but one of them has another content: nothing will be rewritten. */
  predicate Torn(directory: Directory, files: Files) {
    UpToDate(directory, files) && !Holds(directory, files)
  }

  /** Writing that throws midway: some of the files have new contents, possibly cut short, and the hash file is the old one
      or empty. */
  function PartlyWritten(directory: Directory, files: Files, written: Files, hashLost: bool): Directory {
    if UpToDate(directory, files) then directory
    else Directory(directory.files + map name | name in written && name in files :: written[name],
                   if hashLost then None else directory.hash)
  }

  /** A complete write puts the files on disk exactly when the directory was not torn. */
  lemma WrittenHolds(directory: Directory, files: Files)
    ensures Holds(Written(directory, files), files) <==> !Torn(directory, files)
  {
  }

  /** A torn write at work: after the first files, a write of the second ones throws, and going back to the first ones finds
      their hash and rewrites nothing. */
  lemma TornWriteIsHidden()
    ensures var first: Files, second: Files := map[COMPOSE_FILE := "A"], map[COMPOSE_FILE := "B"];
            var torn := PartlyWritten(Written(EMPTY_DIRECTORY, first), second, second, false);
            && HashTruthful(Written(EMPTY_DIRECTORY, first)) && !HashTruthful(torn) && Torn(torn, first)
            && Written(torn, first) == torn && torn.files[COMPOSE_FILE] == "B"
  {
    var first: Files, second: Files := map[COMPOSE_FILE := "A"], map[COMPOSE_FILE := "B"];
    assert first[COMPOSE_FILE] != second[COMPOSE_FILE];
    assert EMPTY_DIRECTORY.files + first == first;
    assert COMPOSE_FILE in second;
  }

  class ServiceDirectory {
    var files: Files
    var hash: Option<Digest>

    function State(): Directory
      reads this
    {
      Directory(files, hash)
    }

    constructor ()
      ensures State() == EMPTY_DIRECTORY
    {
      files, hash := map[], None;
    }

    /** Writes the files one by one and the hash last; `changed` tells whether it wrote anything. */
    method WriteServiceConfigs(generated: Files) returns (changed: bool)
      modifies this
      ensures changed <==> !UpToDate(old(State()), generated)
      ensures State() == Written(old(State()), generated)
      ensures Holds(State(), generated) <==> !Torn(old(State()), generated)
      ensures old(HashTruthful(State())) ==> HashTruthful(State()) && Holds(State(), generated)
    {
      var configHash := Digest(generated);
      if hash == Some(configHash) {
        return false;
      }
      var remaining := generated.Keys;
      while remaining != {}
        invariant remaining <= generated.Keys
        invariant files == old(files) + map name | name in generated && name !in remaining :: generated[name]
        invariant hash == old(hash)
        decreases remaining
      {
        var name :| name in remaining;
        remaining := remaining - {name};
        files := files[name := generated[name]];
      }
      assert (map name | name in generated && name !in remaining :: generated[name]) == generated;
      hash := Some(configHash);
      WrittenHolds(old(State()), generated);
      return true;
    }
  }
}
