/** The log store of lib/logs.js over the `.logs/` directory: one
    append-only `<id>.log` file per check and compressed snapshots named
    `<id>.gz.b64`. gzip followed by base64 (and base64 decoding followed
    by unzip) are foreign and enter as a `Codec`. */
module Logs {
  import opened JsValues
  import opened JsStrings

  /** `pack` is `zlib.gzip` then `toString('base64')`, `unpack` is
      `Buffer.from(_, 'base64')` then `zlib.unzip`; `None` is a failure. */
  datatype Codec = Codec(pack: string -> Option<string>, unpack: string -> Option<string>)

  /** The property the two foreign halves are trusted to have. */
  ghost predicate RoundTrips(codec: Codec) {
    forall s :: codec.pack(s).Some? ==> codec.unpack(codec.pack(s).value) == Some(s)
  }

  const LogSuffix := ".log"
  const CompressedSuffix := ".gz.b64"

  /** What one directory entry adds to the listing of `lib.list`. */
  function Contribution(filename: string, includeCompressedLogs: bool): (r: seq<string>)
    ensures r == [] <==>
      !Includes(filename, LogSuffix) && !(includeCompressedLogs && Includes(filename, CompressedSuffix))
  {
    (if Includes(filename, LogSuffix) then [ReplaceFirst(filename, LogSuffix, "")] else [])
    + (if includeCompressedLogs && Includes(filename, CompressedSuffix)
       then [ReplaceFirst(filename, CompressedSuffix, "")] else [])
  }

  /** The names `lib.list` calls back for directory entries `entries`, in
      directory order. */
  function TrimmedFilenames(entries: seq<string>, includeCompressedLogs: bool): seq<string>
  {
    if entries == [] then []
    else TrimmedFilenames(entries[..|entries| - 1], includeCompressedLogs)
         + Contribution(entries[|entries| - 1], includeCompressedLogs)
  }

  /** Entry `entry` is a log file and is listed as `name`. */
  predicate NamesLog(entry: string, name: string) {
    Includes(entry, LogSuffix) && name == ReplaceFirst(entry, LogSuffix, "")
  }

  /** Without compressed logs, the listing holds exactly the names that
      contain `.log`, each with its first `.log` removed. */
  lemma ListedLogNames(entries: seq<string>, name: string)
    ensures name in TrimmedFilenames(entries, false) <==>
      exists i :: 0 <= i < |entries| && NamesLog(entries[i], name)
  {
    if name in TrimmedFilenames(entries, false) {
      ListedNameIsALog(entries, name);
    }
    if exists i :: 0 <= i < |entries| && NamesLog(entries[i], name) {
      var i :| 0 <= i < |entries| && NamesLog(entries[i], name);
      LogIsListed(entries, i);
    }
  }

  lemma {:induction false} ListedNameIsALog(entries: seq<string>, name: string)
    requires name in TrimmedFilenames(entries, false)
    ensures exists i :: 0 <= i < |entries| && NamesLog(entries[i], name)
  {
    var init := entries[..|entries| - 1];
    var last := entries[|entries| - 1];
    assert TrimmedFilenames(entries, false) == TrimmedFilenames(init, false) + Contribution(last, false);
    if name in TrimmedFilenames(init, false) {
      ListedNameIsALog(init, name);
      var i :| 0 <= i < |init| && NamesLog(init[i], name);
      assert entries[i] == init[i];
    } else {
      assert NamesLog(entries[|entries| - 1], name);
    }
  }

  lemma {:induction false} LogIsListed(entries: seq<string>, i: nat)
    requires i < |entries| && Includes(entries[i], LogSuffix)
    ensures ReplaceFirst(entries[i], LogSuffix, "") in TrimmedFilenames(entries, false)
  {
    var init := entries[..|entries| - 1];
    if i < |init| {
      assert init[i] == entries[i];
      LogIsListed(init, i);
    }
  }

  /** With compressed logs, names containing `.gz.b64` are listed as well,
      with that suffix removed. */
  lemma {:induction false} ListedCompressedNames(entries: seq<string>, i: nat)
    requires i < |entries| && Includes(entries[i], CompressedSuffix)
    ensures ReplaceFirst(entries[i], CompressedSuffix, "") in TrimmedFilenames(entries, true)
  {
    var init := entries[..|entries| - 1];
    if i < |init| {
      assert init[i] == entries[i];
      ListedCompressedNames(init, i);
    }
  }

  /** One listed name per `.log` entry when compressed logs are left out. */
  lemma {:induction false} ListingLength(entries: seq<string>)
    ensures |TrimmedFilenames(entries, false)| == |LogEntries(entries)|
  {
    if entries != [] {
      ListingLength(entries[..|entries| - 1]);
    }
  }

  function LogEntries(entries: seq<string>): seq<string> {
    if entries == [] then []
    else LogEntries(entries[..|entries| - 1])
         + (if Includes(entries[|entries| - 1], LogSuffix) then [entries[|entries| - 1]] else [])
  }

  /** How `lib.list` calls back: `false` and the names for a non-empty
      directory; otherwise `fs.readdir`'s own `(err, data)`, which is an
      error for a missing directory and `(null, [])` for an empty one. */
  datatype ListOutcome = Listed(names: seq<string>) | ReaddirError | EmptyDirectory

  class LogDir {
    /** Whether the `.logs/` directory exists. */
    var present: bool
    /** File name (with its extension) to contents. */
    var files: map<string, string>

    ghost predicate Valid()
      reads this
    {
      !present ==> files == map[]
    }

    constructor (present: bool)
      ensures Valid() && this.present == present && files == map[]
    {
      this.present := present;
      files := map[];
    }

    function Contents(name: string): string
      reads this
    {
      if name in files then files[name] else ""
    }

    /** `lib.append(file, str)`: `fs.appendFile` creates the file when it is
        missing and adds `str` and a newline. */
    method Append(file: string, str: string) returns (err: bool)
      requires Valid()
      modifies this
      ensures Valid() && present == old(present)
      ensures err == !present
      ensures files == if err then old(files)
                       else old(files)[file + LogSuffix := old(Contents(file + LogSuffix)) + str + "\n"]
    {
      err := !present;
      if !err {
        files := files[file + LogSuffix := Contents(file + LogSuffix) + str + "\n"];
      }
    }

    /** `fs.readdir`: every file name once, in an unspecified order, or an
        error when the directory is missing. */
    method Readdir() returns (entries: Option<seq<string>>)
      requires Valid()
      ensures entries.None? <==> !present
      ensures entries.Some? ==>
        && (forall i, j :: 0 <= i < j < |entries.value| ==> entries.value[i] != entries.value[j])
        && (forall f :: f in entries.value <==> f in files)
    {
      if !present {
        return None;
      }
      var remaining := files.Keys;
      var names := [];
      while remaining != {}
        invariant remaining <= files.Keys
        invariant forall f :: f in names <==> f in files && f !in remaining
        invariant forall i, j :: 0 <= i < j < |names| ==> names[i] != names[j]
        decreases remaining
      {
        var f :| f in remaining;
        names := names + [f];
        remaining := remaining - {f};
      }
      entries := Some(names);
    }

    /** `lib.list(includeCompressedLogs)`. `entries` is the directory order
        `fs.readdir` happened to produce. */
    method List(includeCompressedLogs: bool) returns (r: ListOutcome, ghost entries: seq<string>)
      requires Valid()
      ensures forall i, j :: 0 <= i < j < |entries| ==> entries[i] != entries[j]
      ensures forall f :: f in entries <==> f in files
      ensures !present ==> r == ReaddirError
      ensures present && files == map[] ==> r == EmptyDirectory
      ensures present && files != map[] ==> r == Listed(TrimmedFilenames(entries, includeCompressedLogs))
    {
      var data := Readdir();
      if data.None? {
        entries := [];
        return ReaddirError, entries;
      }
      var names := data.value;
      entries := names;
      if |names| == 0 {
        assert forall f :: f !in files;
        return EmptyDirectory, entries;
      }
      assert names[0] in files;
      var trimmed := [];
      for i := 0 to |names|
        invariant trimmed == TrimmedFilenames(names[..i], includeCompressedLogs)
      {
        var filename := names[i];
        if Includes(filename, LogSuffix) {
          trimmed := trimmed + [ReplaceFirst(filename, LogSuffix, "")];
        }
        if includeCompressedLogs && Includes(filename, CompressedSuffix) {
          trimmed := trimmed + [ReplaceFirst(filename, CompressedSuffix, "")];
        }
        assert names[..i + 1][..i] == names[..i];
      }
      assert names[..|names|] == names;
      r := Listed(trimmed);
    }

    /** `lib.truncate(logId)`: empties `<logId>.log`; a missing file is an
        error reported through the result, not a crash. */
    method Truncate(logId: string) returns (err: bool)
      requires Valid()
      modifies this
      ensures Valid() && present == old(present)
      ensures err == (logId + LogSuffix !in old(files))
      ensures files == if err then old(files) else old(files)[logId + LogSuffix := ""]
    {
      err := logId + LogSuffix !in files;
      if !err {
        files := files[logId + LogSuffix := ""];
      }
    }

    /** `lib.compress(logId, newFileId)`: reads `<logId>.log`, packs it and
        writes `<newFileId>.gz.b64`; the first failing step ends it with an
        error and nothing written. The source log is never touched. */
    method Compress(logId: string, newFileId: string, codec: Codec) returns (err: bool)
      requires Valid()
      modifies this
      ensures Valid() && present == old(present)
      ensures err == (logId + LogSuffix !in old(files)
                      || codec.pack(old(files)[logId + LogSuffix]).None?)
      ensures err ==> files == old(files)
      ensures !err ==> files == old(files)[newFileId + CompressedSuffix :=
                                 codec.pack(old(files)[logId + LogSuffix]).value]
      ensures logId + LogSuffix != newFileId + CompressedSuffix ==>
        Contents(logId + LogSuffix) == old(Contents(logId + LogSuffix))
    {
      if logId + LogSuffix !in files {
        return true;
      }
      var data := files[logId + LogSuffix];
      var packed := codec.pack(data);
      if packed.None? {
        return true;
      }
      files := files[newFileId + CompressedSuffix := packed.value];
      err := false;
    }

    /** `lib.decompress(fileId)`: the unpacked contents of
        `<fileId>.gz.b64`, or an error. */
    method Decompress(fileId: string, codec: Codec) returns (str: Option<string>)
      requires Valid()
      ensures fileId + CompressedSuffix !in files ==> str.None?
      ensures fileId + CompressedSuffix in files ==> str == codec.unpack(files[fileId + CompressedSuffix])
    {
      if fileId + CompressedSuffix !in files {
        return None;
      }
      str := codec.unpack(files[fileId + CompressedSuffix]);
    }
  }

  /** Compressing a log and decompressing the snapshot gives the log's
      contents back, whenever the foreign codec round-trips. */
  method CompressThenDecompress(dir: LogDir, logId: string, newFileId: string, codec: Codec)
    returns (err: bool, str: Option<string>)
    requires dir.Valid() && RoundTrips(codec)
    modifies dir
    ensures dir.Valid()
    ensures !err ==> logId + LogSuffix in old(dir.files) && str == Some(old(dir.files)[logId + LogSuffix])
  {
    err := dir.Compress(logId, newFileId, codec);
    str := None;
    if !err {
      str := dir.Decompress(newFileId, codec);
    }
  }
}
