/** The MinIO object store as the pipeline sees it: one bucket holding named
    objects, and the object-name rules of every store operation. A request
    either reaches the bucket or fails; failures never propagate and become
    `false`, `None` or an empty listing. */
module ObjectStore {
  import opened Wrappers
  import opened Text
  import Paths

  newtype byte = x: int | 0 <= x < 256
  type Bytes = seq<byte>

  /** What the bucket holds per object name. */
  datatype StoredObject = StoredObject(data: Bytes, contentType: string, metadata: map<string, string>)

  /** The fields of `get_object_info` that the model keeps (etag and
      last-modified time are not modelled). */
  datatype ObjectInfo = ObjectInfo(objectName: string, size: nat, contentType: string, metadata: map<string, string>)

  const DefaultContentType := "application/octet-stream"

  /** The object addressed by `save_file`, `retrieve`, `retrieve_to_file`,
      `delete_object`, `object_exists` and `get_object_info`:
      the folder with its surrounding '/' removed, a '/', then the file name. */
  function ObjectName(folder: string, filename: string): (key: string)
    ensures EndsWith(key, "/" + filename)
  {
    StripChar(folder, '/') + "/" + filename
  }

  /** The prefix `list_objects` asks for. */
  function ListPrefix(folder: string): string
  {
    if folder != "" then StripChar(folder, '/') + "/" else ""
  }

  /** A folder that the two naming rules of the pipeline treat alike: not
      empty and without a '/' at either end. */
  predicate PlainFolder(folder: string)
  {
    folder != "" && folder[0] != '/' && folder[|folder| - 1] != '/'
  }

  lemma StripCharOfPlain(folder: string)
    requires PlainFolder(folder)
    ensures StripChar(folder, '/') == folder
  {
  }

  /** Within one folder, different file names address different objects. */
  lemma ObjectNameInjective(folder: string, a: string, b: string)
    requires ObjectName(folder, a) == ObjectName(folder, b)
    ensures a == b
  {
    var p := StripChar(folder, '/') + "/";
    assert ObjectName(folder, a) == p + a && ObjectName(folder, b) == p + b;
    assert a == (p + a)[|p|..];
    assert b == (p + b)[|p|..];
  }

  /** Every object addressed in a folder lies under that folder's listing prefix. */
  lemma ObjectNameUnderListPrefix(folder: string, filename: string)
    ensures StartsWith(ObjectName(folder, filename), ListPrefix(folder))
  {
    if folder != "" {
      assert ObjectName(folder, filename)[..|ListPrefix(folder)|] == ListPrefix(folder);
    }
  }

  /** The name a listing reports for `key` under `prefix`: the key itself when
      recursive; otherwise either the key or, for a deeper key, the
      "sub-folder" prefix up to and including the next '/'. */
  function ListingEntry(prefix: string, key: string, recursive: bool): (entry: string)
    requires StartsWith(key, prefix)
    ensures StartsWith(entry, prefix) && |entry| <= |key|
  {
    if recursive then key
    else
      match Find(key[|prefix|..], "/")
      case None => key
      case Some(i) =>
        assert key[|prefix|..][i..i + 1] == "/";
        assert key[..|prefix| + i + 1][..|prefix|] == prefix;
        key[..|prefix| + i + 1]
  }

  /** The store's folder of the day: `{category}/{date}` with the date already
      rendered as `strftime('%Y-%m-%d')` renders it. */
  function DateFolder(category: string, date: string): string
  {
    category + "/" + date
  }

  /** The object `save_data_with_date` writes as written: its folder lands in
      `save`'s object-name slot, so the file name is lost. */
  function SavedDateKeyAsWritten(category: string, date: string, filename: string): string
  {
    DateFolder(category, date)
  }

  /** The object `retrieve_data_with_date` reads. */
  function ReadDateKey(category: string, date: string, filename: string): string
  {
    ObjectName(DateFolder(category, date), filename)
  }

  /** For a category without a '/' at either end and a rendered date, the
      object the dated read addresses is the date-organised name
      `{category}/{date}/{filename}`. */
  lemma ReadDateKeyShape(category: string, date: string, filename: string)
    requires PlainFolder(category) && date != "" && date[|date| - 1] != '/'
    ensures ReadDateKey(category, date, filename) == category + "/" + date + "/" + filename
  {
    var f := DateFolder(category, date);
    assert f[0] == category[0] && f[|f| - 1] == date[|date| - 1];
    StripCharOfPlain(f);
  }

  /** As written, the two date operations never meet for a category without
      a '/' at either end and a rendered date: the read key is longer. */
  lemma DateKeysDisagree(category: string, date: string, filename: string)
    requires PlainFolder(category) && date != "" && date[|date| - 1] != '/'
    ensures SavedDateKeyAsWritten(category, date, filename) != ReadDateKey(category, date, filename)
  {
    var f := DateFolder(category, date);
    assert f[0] == category[0] && f[|f| - 1] == date[|date| - 1];
    StripCharOfPlain(f);
    assert |ReadDateKey(category, date, filename)| == |f| + 1 + |filename|;
  }

  lemma DateKeysDisagreeExample()
    ensures SavedDateKeyAsWritten("stocks", "2024-01-15", "AAPL_1min.csv")
         != ReadDateKey("stocks", "2024-01-15", "AAPL_1min.csv")
  {
    DateKeysDisagree("stocks", "2024-01-15", "AAPL_1min.csv");
  }

  /** An object answers requests: it is stored and requests for it succeed. */
  predicate Answers(objects: map<string, StoredObject>, unreachable: set<string>, name: string)
  {
    name in objects && name !in unreachable
  }

  /** One bucket. `unreachable` holds the object names (and listing prefixes)
      whose requests fail with an S3 or transport error; `accessed` records,
      in order, the name each request addressed. */
  class MinioService {
    var objects: map<string, StoredObject>
    var unreachable: set<string>
    ghost var accessed: seq<string>

    constructor (objects: map<string, StoredObject>, unreachable: set<string>)
      ensures this.objects == objects && this.unreachable == unreachable && accessed == []
    {
      this.objects := objects;
      this.unreachable := unreachable;
      accessed := [];
    }

    predicate Reachable(name: string)
      reads this
    {
      Answers(objects, unreachable, name)
    }

    /** `save`: puts `data` under the object name given as `filename`, as is. */
    method Save(data: Bytes, filename: string, contentType: string, metadata: map<string, string>) returns (ok: bool)
      modifies this`objects, this`accessed
      ensures ok == (filename !in unreachable)
      ensures objects == if ok then old(objects)[filename := StoredObject(data, contentType, metadata)] else old(objects)
      ensures accessed == old(accessed) + [filename]
    {
      accessed := accessed + [filename];
      ok := filename !in unreachable;
      if ok {
        objects := objects[filename := StoredObject(data, contentType, metadata)];
      }
    }

    /** `save_file`: uploads the local file `filePath` as `filename` (its
        basename when no name is given) in `folder`; a missing local file
        uploads nothing. */
    method SaveFile(local: map<string, Bytes>, filePath: string, folder: string, filename: Option<string>,
                    metadata: map<string, string>) returns (ok: bool)
      modifies this`objects, this`accessed
      ensures var key := ObjectName(folder, filename.GetOr(Paths.Basename(filePath)));
        ok == (filePath in local && key !in unreachable)
        && objects == (if ok then old(objects)[key := StoredObject(local[filePath], DefaultContentType, metadata)] else old(objects))
        && accessed == old(accessed) + (if filePath in local then [key] else [])
    {
      if filePath !in local {
        return false;
      }
      var name := if filename.Some? then filename.value else Paths.Basename(filePath);
      var key := ObjectName(folder, name);
      accessed := accessed + [key];
      ok := key !in unreachable;
      if ok {
        objects := objects[key := StoredObject(local[filePath], DefaultContentType, metadata)];
      }
    }

    /** `retrieve`: the object's bytes, or `None` when it cannot be read. */
    method Retrieve(folder: string, filename: string) returns (r: Option<Bytes>)
      modifies this`accessed
      ensures var key := ObjectName(folder, filename);
        r == (if Reachable(key) then Some(objects[key].data) else None) && accessed == old(accessed) + [key]
    {
      var key := ObjectName(folder, filename);
      accessed := accessed + [key];
      if key in objects && key !in unreachable {
        r := Some(objects[key].data);
      } else {
        r := None;
      }
    }

    /** `retrieve_to_file`: copies the object into the local file `localPath`. */
    method RetrieveToFile(folder: string, filename: string, localPath: string, local: map<string, Bytes>)
      returns (ok: bool, local': map<string, Bytes>)
      modifies this`accessed
      ensures var key := ObjectName(folder, filename);
        ok == Reachable(key) && local' == (if ok then local[localPath := objects[key].data] else local)
        && accessed == old(accessed) + [key]
    {
      var key := ObjectName(folder, filename);
      accessed := accessed + [key];
      ok := key in objects && key !in unreachable;
      local' := if ok then local[localPath := objects[key].data] else local;
    }

    /** `object_exists`: true iff the object is stored and the probe succeeds. */
    method ObjectExists(folder: string, filename: string) returns (found: bool)
      modifies this`accessed
      ensures found == Reachable(ObjectName(folder, filename))
      ensures accessed == old(accessed) + [ObjectName(folder, filename)]
    {
      var key := ObjectName(folder, filename);
      accessed := accessed + [key];
      found := key in objects && key !in unreachable;
    }

    /** `get_object_info`. */
    method GetObjectInfo(folder: string, filename: string) returns (r: Option<ObjectInfo>)
      modifies this`accessed
      ensures var key := ObjectName(folder, filename);
        r == (if Reachable(key)
              then Some(ObjectInfo(key, |objects[key].data|, objects[key].contentType, objects[key].metadata))
              else None)
        && accessed == old(accessed) + [key]
    {
      var key := ObjectName(folder, filename);
      accessed := accessed + [key];
      if key in objects && key !in unreachable {
        var o := objects[key];
        r := Some(ObjectInfo(key, |o.data|, o.contentType, o.metadata));
      } else {
        r := None;
      }
    }

    /** `delete_object`: removing an object that is not there succeeds too. */
    method DeleteObject(folder: string, filename: string) returns (ok: bool)
      modifies this`objects, this`accessed
      ensures var key := ObjectName(folder, filename);
        ok == (key !in unreachable) && objects == (if ok then old(objects) - {key} else old(objects))
        && accessed == old(accessed) + [key]
    {
      var key := ObjectName(folder, filename);
      accessed := accessed + [key];
      ok := key !in unreachable;
      if ok {
        objects := objects - {key};
      }
    }

    /** The names a listing of `folder` reports. */
    function Listed(folder: string, recursive: bool): (names: set<string>)
      reads this
      ensures forall n :: n in names ==> StartsWith(n, ListPrefix(folder))
    {
      var prefix := ListPrefix(folder);
      set k | k in objects && StartsWith(k, prefix) :: ListingEntry(prefix, k, recursive)
    }

    /** `list_objects`: the listed names, each once (the server's order is not
        modelled); an empty list on error. */
    method ListObjects(folder: string, recursive: bool) returns (names: seq<string>)
      modifies this`accessed
      ensures accessed == old(accessed) + [ListPrefix(folder)]
      ensures ListPrefix(folder) in unreachable ==> names == []
      ensures ListPrefix(folder) !in unreachable ==> (forall n :: n in names <==> n in Listed(folder, recursive))
      ensures forall i, j :: 0 <= i < j < |names| ==> names[i] != names[j]
    {
      accessed := accessed + [ListPrefix(folder)];
      if ListPrefix(folder) in unreachable {
        return [];
      }
      var pending := Listed(folder, recursive);
      names := [];
      while pending != {}
        invariant forall n :: n in names || n in pending <==> n in Listed(folder, recursive)
        invariant forall n :: n in names ==> n !in pending
        invariant forall i, j :: 0 <= i < j < |names| ==> names[i] != names[j]
        decreases |pending|
      {
        var n :| n in pending;
        names := names + [n];
        pending := pending - {n};
      }
    }

    /** `save_data_with_date` as written: `save(data, folder, filename, ...)`
        fills save's object-name slot with the date folder and its content-type
        slot with the file name. */
    method SaveDataWithDateAsWritten(data: Bytes, date: string, category: string, filename: string,
                                     metadata: map<string, string>) returns (ok: bool)
      modifies this`objects, this`accessed
      ensures var key := SavedDateKeyAsWritten(category, date, filename);
        ok == (key !in unreachable)
        && objects == if ok then old(objects)[key := StoredObject(data, filename, metadata)] else old(objects)
    {
      ok := Save(data, DateFolder(category, date), filename, metadata);
    }

    /** `save_data_with_date` as evidently intended: the object name is built
        by the same rule `retrieve_data_with_date` reads with, which is the
        date-organised `{category}/{date}/{filename}` (ReadDateKeyShape). */
    method SaveDataWithDate(data: Bytes, date: string, category: string, filename: string,
                            metadata: map<string, string>) returns (ok: bool)
      modifies this`objects, this`accessed
      ensures var key := ReadDateKey(category, date, filename);
        ok == (key !in unreachable)
        && objects == if ok then old(objects)[key := StoredObject(data, DefaultContentType, metadata)] else old(objects)
    {
      ok := Save(data, ObjectName(DateFolder(category, date), filename), DefaultContentType, metadata);
    }

    /** `retrieve_data_with_date`. */
    method RetrieveDataWithDate(date: string, category: string, filename: string) returns (r: Option<Bytes>)
      modifies this`accessed
      ensures var key := ReadDateKey(category, date, filename);
        r == if Reachable(key) then Some(objects[key].data) else None
    {
      r := Retrieve(DateFolder(category, date), filename);
    }

    /** As written, a successful dated save followed by the dated read of the
        same category, date and name reads nothing when the object was not
        there before. */
    method DatedRoundTripAsWritten(data: Bytes, date: string, category: string, filename: string)
      returns (saved: bool, r: Option<Bytes>)
      requires PlainFolder(category) && date != "" && date[|date| - 1] != '/'
      requires ReadDateKey(category, date, filename) !in objects
      modifies this`objects, this`accessed
      ensures r == None
    {
      DateKeysDisagree(category, date, filename);
      saved := SaveDataWithDateAsWritten(data, date, category, filename, map[]);
      r := RetrieveDataWithDate(date, category, filename);
    }

    /** With the corrected save, the dated read returns what the dated save wrote. */
    method DatedRoundTrip(data: Bytes, date: string, category: string, filename: string)
      returns (saved: bool, r: Option<Bytes>)
      modifies this`objects, this`accessed
      ensures saved == (ReadDateKey(category, date, filename) !in unreachable)
      ensures saved ==> r == Some(data)
    {
      saved := SaveDataWithDate(data, date, category, filename, map[]);
      r := RetrieveDataWithDate(date, category, filename);
    }
  }
}
