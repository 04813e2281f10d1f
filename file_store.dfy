/** The main-process file store: one JSON file per note under `<base>/notes/`, the
    graph in `<base>/graph/nodes.json`, the project metadata in `<base>/project.json`.
    The disk is a map from path to file contents; every read validates against a
    schema, every write validates first and then goes through a temporary sibling
    file that is renamed onto the target. */
module FileStore {
  import opened Wrappers
  import opened Json
  import opened Schemas
  import opened Seqs

  /** A file's contents: JSON text, or text that is not JSON (a half-written file). */
  datatype Blob = Stored(value: Json) | Garbled

  type Disk = map<string, Blob>

  datatype Error =
    | FileNotFound(path: string)    // safeRead: the path does not exist
    | NotJson(path: string)         // fs.readJson rejects the text
    | SchemaMismatch(path: string)  // schema.parse rejects what was read
    | InvalidValue                  // a write was asked to store a value its schema rejects
    | IoFailure(path: string)       // fs.outputJson or fs.rename rejected

  /** How the file system answers the two steps of an atomic write: writing the
      temporary file (which may leave a partial file behind) and renaming it. */
  datatype Fault = NoFault | OutputFails(partial: bool) | RenameFails

  // ---------------------------------------------------------------- paths

  predicate EndsWith(s: string, suffix: string) {
    |s| >= |suffix| && s[|s| - |suffix|..] == suffix
  }

  /** The notes directory, `<base>/notes`, written with its trailing separator so that
      an entry's path is the directory followed by the entry's name. */
  function NotesDir(base: string): string { base + "/notes/" }

  /** `getNotePath`: the file `<id>.json` directly in the notes directory. */
  function NotePath(base: string, id: string): string { NotesDir(base) + id + ".json" }

  /** `getGraphPath`: `<base>/graph/nodes.json`. */
  function GraphPath(base: string): string { base + "/graph/nodes.json" }

  /** `getProjectPath`: `<base>/project.json`. */
  function ProjectPath(base: string): string { base + "/project.json" }

  /** The temporary file of an atomic write: the target's path extended by `.tmp`. */
  function TempPath(path: string): string { path + ".tmp" }

  /** Where each path lies: the notes directory and the graph and project files are
      under the base path, a note's file is its id followed by `.json` directly inside
      the notes directory, and a temporary file sits beside its target with the extra
      extension `.tmp`. */
  lemma PathLayout(base: string, id: string, path: string)
    ensures var d := NotesDir(base);
      && |d| > |base| && d[..|base|] == base && EndsWith(d, "/")
    ensures var d, n := NotesDir(base), NotePath(base, id);
      && |n| >= |d| && n[..|d|] == d && n[|d|..] == id + ".json" && EndsWith(n, ".json")
    ensures var g := GraphPath(base);
      && |g| > |base| && g[..|base|] == base && EndsWith(g, "/nodes.json")
    ensures var q := ProjectPath(base);
      && |q| > |base| && q[..|base|] == base && EndsWith(q, "/project.json")
    ensures var t := TempPath(path);
      && |t| == |path| + 4 && t[..|path|] == path && EndsWith(t, ".tmp")
  {
    var d, n := NotesDir(base), NotePath(base, id);
    assert n == d + (id + ".json");
  }

  /** Different note ids never share a file. */
  lemma NotePathInjective(base: string, a: string, b: string)
    requires NotePath(base, a) == NotePath(base, b)
    ensures a == b
  {
    var pa, pb := NotePath(base, a), NotePath(base, b);
    assert |a| == |b|;
    forall i | 0 <= i < |a| ensures a[i] == b[i] {
      assert pa[|base| + 7 + i] == a[i];
      assert pb[|base| + 7 + i] == b[i];
    }
  }

  /** Notes, the graph and the project never share a file, and no temporary file is
      any of them. */
  lemma PathsDistinct(base: string, id: string, p: string)
    ensures NotePath(base, id) != GraphPath(base)
    ensures NotePath(base, id) != ProjectPath(base)
    ensures GraphPath(base) != ProjectPath(base)
    ensures TempPath(p) != NotePath(base, id)
    ensures TempPath(p) != GraphPath(base)
    ensures TempPath(p) != ProjectPath(base)
    ensures TempPath(p) != p
  {
    var n, g, q, t := NotePath(base, id), GraphPath(base), ProjectPath(base), TempPath(p);
    assert n[|base| + 1] == 'n' && g[|base| + 1] == 'g' && q[|base| + 1] == 'p';
    assert n[|n| - 1] == 'n' && g[|g| - 1] == 'n' && q[|q| - 1] == 'n' && t[|t| - 1] == 'p';
    assert |t| == |p| + 4;
  }

  /** A temporary file's name never ends in `.json`, so listing never picks one up. */
  lemma TempNotJson(p: string)
    ensures !EndsWith(TempPath(p), ".json")
  {
    var t := TempPath(p);
    if |t| >= 5 {
      assert t[|t| - 1] == 'p';
      assert t[|t| - 5..][4] == t[|t| - 1];
    }
  }

  // ---------------------------------------------------------------- reads

  /** `safeRead`: fails when the path is absent, when its text is not JSON, or when
      the schema rejects it; otherwise returns what the schema parsed. */
  function SafeRead<T>(disk: Disk, path: string, parse: Json -> Option<T>): (r: Result<T, Error>)
    ensures path !in disk ==> r == Err(FileNotFound(path))
    ensures r.Ok? <==> path in disk && disk[path].Stored? && parse(disk[path].value).Some?
    ensures r.Ok? ==> parse(disk[path].value) == Some(r.value)
  {
    if path !in disk then Err(FileNotFound(path))
    else match disk[path]
      case Garbled => Err(NotJson(path))
      case Stored(j) =>
        match parse(j)
        case None => Err(SchemaMismatch(path))
        case Some(v) => Ok(v)
  }

  /** `readNote`: the note file of the id, read through the note schema. */
  function ReadNote(base: string, disk: Disk, id: string): (r: Result<Note, Error>)
    ensures NotePath(base, id) !in disk ==> r == Err(FileNotFound(NotePath(base, id)))
    ensures r.Ok? <==> NotePath(base, id) in disk && disk[NotePath(base, id)].Stored?
                       && IsNote(disk[NotePath(base, id)].value)
    ensures r.Ok? ==> NoteJson(r.value) == Restrict(disk[NotePath(base, id)].value, NoteKeys)
  {
    SafeRead(disk, NotePath(base, id), ParseNote)
  }

  /** `readGraph`: an absent graph file reads as the empty graph. */
  function ReadGraph(base: string, disk: Disk): (r: Result<GraphData, Error>)
    ensures GraphPath(base) !in disk ==> r == Ok(GraphData([], []))
    ensures GraphPath(base) in disk ==> (r.Ok? <==> disk[GraphPath(base)].Stored? && IsGraphData(disk[GraphPath(base)].value))
    ensures GraphPath(base) in disk && r.Ok? ==> ParseGraph(disk[GraphPath(base)].value) == Some(r.value)
  {
    if GraphPath(base) !in disk then Ok(GraphData([], []))
    else SafeRead(disk, GraphPath(base), ParseGraph)
  }

  /** `readProjectMetadata`: an absent project file reads as `null`. */
  function ReadProjectMetadata(base: string, disk: Disk): (r: Result<Option<ProjectMetadata>, Error>)
    ensures ProjectPath(base) !in disk ==> r == Ok(None)
    ensures ProjectPath(base) in disk ==> (r.Ok? <==> disk[ProjectPath(base)].Stored? && IsProjectMetadata(disk[ProjectPath(base)].value))
    ensures r.Ok? && r.value.Some? ==> ProjectPath(base) in disk
    ensures ProjectPath(base) in disk && r.Ok? ==> r.value.Some? && ParseProject(disk[ProjectPath(base)].value) == r.value
  {
    if ProjectPath(base) !in disk then Ok(None)
    else match SafeRead(disk, ProjectPath(base), ParseProject)
      case Ok(p) => Ok(Some(p))
      case Err(e) => Err(e)
  }

  // ---------------------------------------------------------------- effects of writes

  /** The disk after a successful atomic write of `v` to `path`. */
  function Committed(disk: Disk, path: string, v: Json): Disk {
    (disk - {TempPath(path)})[path := Stored(v)]
  }

  /** The disk after a failed atomic write to `path`. */
  function Abandoned(disk: Disk, path: string): Disk {
    disk - {TempPath(path)}
  }

  /** A successful write renamed the temporary file onto the target: the target holds
      the value, the temporary file is gone and every other file is as it was. */
  lemma CommittedEffect(disk: Disk, path: string, v: Json, q: string)
    ensures path in Committed(disk, path, v) && Committed(disk, path, v)[path] == Stored(v)
    ensures TempPath(path) !in Committed(disk, path, v)
    ensures q != path && q != TempPath(path) ==> (q in Committed(disk, path, v) <==> q in disk)
    ensures q in Committed(disk, path, v) && q != path ==> Committed(disk, path, v)[q] == disk[q]
  {
  }

  /** A failed write leaves no temporary file, whole, partial or never written, and
      every other file, the target included, exactly as it was. */
  lemma AbandonedKeepsTarget(disk: Disk, path: string, q: string)
    ensures TempPath(path) !in Abandoned(disk, path)
    ensures q != TempPath(path) ==> (q in Abandoned(disk, path) <==> q in disk)
    ensures q in Abandoned(disk, path) ==> Abandoned(disk, path)[q] == disk[q]
  {
  }

  /** Writing a valid note and reading its id back gives the parsed note; for a note
      written from a typed value, that is the note itself. */
  lemma {:induction false} NoteWriteRead(base: string, disk: Disk, n: Note)
    ensures ReadNote(base, Committed(disk, NotePath(base, n.id), NoteJson(n)), n.id) == Ok(n)
  {
    NoteRoundTrip(n);
    PathsDistinct(base, n.id, NotePath(base, n.id));
  }

  lemma {:induction false} GraphWriteRead(base: string, disk: Disk, g: GraphData)
    ensures ReadGraph(base, Committed(disk, GraphPath(base), GraphJson(g))) == Ok(g)
  {
    GraphRoundTrip(g);
    PathsDistinct(base, "", GraphPath(base));
  }

  // ---------------------------------------------------------------- listing

  /** The names `readdir(dir)` returns: files directly inside the directory. */
  function DirEntries(disk: Disk, dir: string): set<string> {
    set p | p in disk && |p| > |dir| && p[..|dir|] == dir && '/' !in p[|dir|..] :: p[|dir|..]
  }

  predicate IsJsonName(f: string) { EndsWith(f, ".json") }

  /** `path.basename(f, '.json')` of a bare file name. */
  function Stem(f: string): (r: string)
    ensures IsJsonName(f) ==> r + ".json" == f
    ensures !IsJsonName(f) ==> r == f
  {
    if IsJsonName(f) then f[..|f| - 5] else f
  }

  /** `readNote(...).catch(() => null)` for one directory entry. */
  function TryRead(base: string, disk: Disk, f: string): (r: Option<Note>)
    ensures r.None? <==> ReadNote(base, disk, Stem(f)).Err?
    ensures r.Some? ==> ReadNote(base, disk, Stem(f)) == Ok(r.value)
  {
    match ReadNote(base, disk, Stem(f))
    case Ok(n) => Some(n)
    case Err(_) => None
  }

  function Present<T>(s: seq<Option<T>>): seq<T> {
    if s == [] then [] else (if s[0].Some? then [s[0].value] else []) + Present(s[1..])
  }

  /** The `listNotes` pipeline over the directory entries in readdir order: keep the
      `.json` names, read each one as a note, drop those that failed. */
  lemma {:induction false} PresentLength<T>(s: seq<Option<T>>)
    ensures |Present(s)| <= |s|
  {
    if s != [] {
      PresentLength(s[1..]);
    }
  }

  function CollectNotes(base: string, disk: Disk, files: seq<string>): (r: seq<Note>)
    ensures |r| <= |files|
  {
    var names := Filter(files, IsJsonName);
    var tries := seq(|names|, i requires 0 <= i < |names| => TryRead(base, disk, names[i]));
    PresentLength(tries);
    Present(tries)
  }

  /** A directory entry that `listNotes` turns into a note. */
  predicate Listable(base: string, disk: Disk, f: string) {
    IsJsonName(f) && ReadNote(base, disk, Stem(f)).Ok?
  }

  function ListedFiles(base: string, disk: Disk): set<string> {
    set f | f in DirEntries(disk, NotesDir(base)) && Listable(base, disk, f)
  }

  ghost predicate ListedNote(base: string, disk: Disk, n: Note) {
    exists f :: f in ListedFiles(base, disk) && ReadNote(base, disk, Stem(f)) == Ok(n)
  }

  lemma {:induction false} PresentAppend<T>(a: seq<Option<T>>, b: seq<Option<T>>)
    ensures Present(a + b) == Present(a) + Present(b)
  {
    if a == [] {
      assert a + b == b;
    } else {
      assert (a + b)[0] == a[0] && (a + b)[1..] == a[1..] + b;
      PresentAppend(a[1..], b);
    }
  }

  /** The pipeline handles the first entry and then the rest. */
  lemma {:induction false} CollectCons(base: string, disk: Disk, files: seq<string>)
    requires files != []
    ensures CollectNotes(base, disk, files) ==
              (if Listable(base, disk, files[0]) then [ReadNote(base, disk, Stem(files[0])).value] else [])
              + CollectNotes(base, disk, files[1..])
  {
    var f := files[0];
    var tail := Filter(files[1..], IsJsonName);
    assert Filter(files, IsJsonName) == (if IsJsonName(f) then [f] else []) + tail by {
      assert files == [f] + files[1..];
      FilterAppend([f], files[1..], IsJsonName);
      assert [f][1..] == [];
    }
    var tries := seq(|tail|, i requires 0 <= i < |tail| => TryRead(base, disk, tail[i]));
    if IsJsonName(f) {
      var all := [f] + tail;
      var allTries := seq(|all|, i requires 0 <= i < |all| => TryRead(base, disk, all[i]));
      assert allTries == [TryRead(base, disk, f)] + tries;
      assert Present(allTries) == Present([TryRead(base, disk, f)]) + Present(tries) by {
        PresentAppend([TryRead(base, disk, f)], tries);
      }
      assert Present([TryRead(base, disk, f)]) == if Listable(base, disk, f) then [ReadNote(base, disk, Stem(f)).value] else [] by {
        assert [TryRead(base, disk, f)][1..] == [];
      }
      assert CollectNotes(base, disk, files) == Present(allTries);
      assert CollectNotes(base, disk, files[1..]) == Present(tries);
    } else {
      assert Filter(files, IsJsonName) == tail;
    }
  }

  /** A note is listed iff some `.json` entry reads as that note. */
  lemma {:induction false} CollectMembership(base: string, disk: Disk, files: seq<string>, n: Note)
    ensures n in CollectNotes(base, disk, files) <==>
            exists f :: f in files && Listable(base, disk, f) && ReadNote(base, disk, Stem(f)) == Ok(n)
  {
    if files != [] {
      CollectCons(base, disk, files);
      CollectMembership(base, disk, files[1..], n);
      assert files == [files[0]] + files[1..];
      if n in CollectNotes(base, disk, files[1..]) {
        var f :| f in files[1..] && Listable(base, disk, f) && ReadNote(base, disk, Stem(f)) == Ok(n);
        assert f in files;
      }
    }
  }

  function ListableIn(base: string, disk: Disk, files: seq<string>): set<string> {
    set f | f in files && Listable(base, disk, f)
  }

  /** Over distinct entries, one note per listable entry: none is lost or doubled. */
  lemma {:induction false} CollectCount(base: string, disk: Disk, files: seq<string>)
    requires Distinct(files)
    ensures |CollectNotes(base, disk, files)| == |ListableIn(base, disk, files)|
  {
    var keep := f => Listable(base, disk, f);
    assert forall f :: keep(f) == Listable(base, disk, f);
    CollectIsFilter(base, disk, files, keep);
    FilterCount(files, keep, ListableIn(base, disk, files));
  }

  lemma {:induction false} CollectIsFilter(base: string, disk: Disk, files: seq<string>, keep: string -> bool)
    requires forall f :: keep(f) == Listable(base, disk, f)
    ensures |CollectNotes(base, disk, files)| == |Filter(files, keep)|
  {
    if files != [] {
      CollectCons(base, disk, files);
      CollectIsFilter(base, disk, files[1..], keep);
    }
  }

  // ---------------------------------------------------------------- listing after writes

  /** A directory entry is a non-empty name without `/` whose full path is on disk. */
  /** `readdir` lists a name iff it is a non-empty name without a separator and the
      directory followed by that name is a file on disk. */
  lemma EntryIff(disk: Disk, dir: string, f: string)
    ensures f in DirEntries(disk, dir) <==> f != "" && '/' !in f && dir + f in disk
  {
    if f in DirEntries(disk, dir) {
      var p :| p in disk && |p| > |dir| && p[..|dir|] == dir && '/' !in p[|dir|..] && p[|dir|..] == f;
      assert p == p[..|dir|] + p[|dir|..];
    }
    if f != "" && '/' !in f && dir + f in disk {
      var p := dir + f;
      assert p[..|dir|] == dir && p[|dir|..] == f;
    }
  }

  lemma AppendInjective(dir: string, f: string, g: string)
    requires dir + f == dir + g
    ensures f == g
  {
    assert f == (dir + f)[|dir|..];
    assert g == (dir + g)[|dir|..];
  }

  /** A successful note write adds `<id>.json` to the notes directory and removes
      `<id>.json.tmp`; every other entry stays. */
  lemma {:induction false} EntriesAfterCommit(base: string, disk: Disk, id: string, v: Json)
    requires '/' !in id
    ensures DirEntries(Committed(disk, NotePath(base, id), v), NotesDir(base))
            == DirEntries(disk, NotesDir(base)) - {id + ".json.tmp"} + {id + ".json"}
  {
    var dir := NotesDir(base);
    var d' := Committed(disk, NotePath(base, id), v);
    assert NotePath(base, id) == dir + (id + ".json");
    assert TempPath(NotePath(base, id)) == dir + (id + ".json.tmp");
    forall f ensures f in DirEntries(d', dir) <==> f in DirEntries(disk, dir) - {id + ".json.tmp"} + {id + ".json"} {
      EntryIff(d', dir, f);
      EntryIff(disk, dir, f);
      if dir + f == dir + (id + ".json") { AppendInjective(dir, f, id + ".json"); }
      if dir + f == dir + (id + ".json.tmp") { AppendInjective(dir, f, id + ".json.tmp"); }
    }
  }

  /** The disk after writing each note of `ns` in turn, every write succeeding. */
  function WriteAll(base: string, disk: Disk, ns: seq<Note>): Disk {
    if ns == [] then disk
    else
      var last := ns[|ns| - 1];
      Committed(WriteAll(base, disk, ns[..|ns| - 1]), NotePath(base, last.id), NoteJson(last))
  }

  ghost predicate DistinctIds(ns: seq<Note>) {
    forall i, j :: 0 <= i < j < |ns| ==> ns[i].id != ns[j].id
  }

  ghost predicate PlainIds(ns: seq<Note>) {
    forall i :: 0 <= i < |ns| ==> '/' !in ns[i].id
  }

  function JsonNames(ns: seq<Note>): set<string> {
    set n | n in ns :: n.id + ".json"
  }

  lemma JsonNameNotTemp(a: string, b: string)
    ensures a + ".json" != b + ".json.tmp"
  {
    var x, y := a + ".json", b + ".json.tmp";
    if |x| == |y| {
      assert x[|x| - 1] == 'n' && y[|y| - 1] == 'p';
    }
  }

  lemma JsonNameInjective(a: string, b: string)
    requires a + ".json" == b + ".json"
    ensures a == b
  {
    assert a == (a + ".json")[..|a|];
    assert b == (b + ".json")[..|b|];
  }

  /** A note write leaves every other note's file as it was. */
  lemma {:induction false} OtherNoteKept(base: string, disk: Disk, id: string, other: string, v: Json)
    requires id != other
    ensures ReadNote(base, Committed(disk, NotePath(base, other), v), id) == ReadNote(base, disk, id)
  {
    if NotePath(base, id) == NotePath(base, other) {
      NotePathInjective(base, id, other);
    }
    PathsDistinct(base, id, NotePath(base, other));
  }

  /** After the writes, the notes directory holds exactly one `<id>.json` per note. */
  lemma {:induction false} WriteAllEntries(base: string, disk: Disk, ns: seq<Note>)
    requires DirEntries(disk, NotesDir(base)) == {}
    requires PlainIds(ns)
    ensures DirEntries(WriteAll(base, disk, ns), NotesDir(base)) == JsonNames(ns)
  {
    if ns != [] {
      var init, last := ns[..|ns| - 1], ns[|ns| - 1];
      var d, tmp, name := WriteAll(base, disk, init), last.id + ".json.tmp", last.id + ".json";
      assert WriteAll(base, disk, ns) == Committed(d, NotePath(base, last.id), NoteJson(last));
      assert DirEntries(WriteAll(base, disk, ns), NotesDir(base)) == JsonNames(init) - {tmp} + {name} by {
        assert PlainIds(init) by { assert forall m :: m in init ==> m in ns; }
        WriteAllEntries(base, disk, init);
        EntriesAfterCommit(base, d, last.id, NoteJson(last));
      }
      assert tmp !in JsonNames(init) by {
        forall m | m in init ensures m.id + ".json" != tmp {
          JsonNameNotTemp(m.id, last.id);
        }
      }
      assert JsonNames(ns) == JsonNames(init) + {name} by {
        assert ns == init + [last];
      }
    }
  }

  /** After the writes, each id reads back as its note. */
  lemma {:induction false} WriteAllReads(base: string, disk: Disk, ns: seq<Note>)
    requires DistinctIds(ns)
    ensures forall n :: n in ns ==> ReadNote(base, WriteAll(base, disk, ns), n.id) == Ok(n)
  {
    if ns != [] {
      var init, last := ns[..|ns| - 1], ns[|ns| - 1];
      assert ns == init + [last];
      WriteAllReads(base, disk, init);
      var d := WriteAll(base, disk, init);
      NoteWriteRead(base, d, last);
      forall n | n in ns ensures ReadNote(base, WriteAll(base, disk, ns), n.id) == Ok(n) {
        if n != last {
          var k :| 0 <= k < |ns| && ns[k] == n;
          assert k < |ns| - 1;
          assert n in init;
          OtherNoteKept(base, d, n.id, last.id, NoteJson(last));
        }
      }
    }
  }

  /** Distinct ids give distinct file names: as many names as notes. */
  lemma {:induction false} JsonNamesCount(ns: seq<Note>)
    requires DistinctIds(ns)
    ensures |JsonNames(ns)| == |ns|
  {
    if ns != [] {
      var init, last := ns[..|ns| - 1], ns[|ns| - 1];
      assert ns == init + [last];
      JsonNamesCount(init);
      assert JsonNames(ns) == JsonNames(init) + {last.id + ".json"};
      forall m | m in init ensures m.id + ".json" != last.id + ".json" {
        var k :| 0 <= k < |init| && init[k] == m;
        assert ns[k] == m;
        if m.id + ".json" == last.id + ".json" {
          JsonNameInjective(m.id, last.id);
        }
      }
    }
  }

  /** Writing N notes with distinct ids into an empty notes directory: listing finds
      one file per note. */
  lemma {:induction false} ListedFilesAfterWrites(base: string, disk: Disk, ns: seq<Note>)
    requires DirEntries(disk, NotesDir(base)) == {}
    requires DistinctIds(ns) && PlainIds(ns)
    ensures ListedFiles(base, WriteAll(base, disk, ns)) == JsonNames(ns)
    ensures |ListedFiles(base, WriteAll(base, disk, ns))| == |ns|
  {
    var d := WriteAll(base, disk, ns);
    WriteAllEntries(base, disk, ns);
    WriteAllReads(base, disk, ns);
    JsonNamesCount(ns);
    forall f | f in JsonNames(ns) ensures Listable(base, d, f) {
      var n :| n in ns && f == n.id + ".json";
      assert Stem(f) == n.id;
    }
  }

  lemma ListedNoteIff(base: string, d: Disk, ns: seq<Note>, m: Note)
    requires ListedFiles(base, d) == JsonNames(ns)
    requires forall n :: n in ns ==> ReadNote(base, d, n.id) == Ok(n)
    ensures ListedNote(base, d, m) <==> m in ns
  {
    if m in ns {
      assert Stem(m.id + ".json") == m.id;
      assert m.id + ".json" in ListedFiles(base, d);
    }
    if ListedNote(base, d, m) {
      var f :| f in ListedFiles(base, d) && ReadNote(base, d, Stem(f)) == Ok(m);
      var n :| n in ns && f == n.id + ".json";
      assert Stem(f) == n.id;
    }
  }

  /** ... and the notes it finds are exactly the notes written. */
  lemma {:induction false} ListingAfterWrites(base: string, disk: Disk, ns: seq<Note>)
    requires DirEntries(disk, NotesDir(base)) == {}
    requires DistinctIds(ns) && PlainIds(ns)
    ensures forall m :: ListedNote(base, WriteAll(base, disk, ns), m) <==> m in ns
  {
    var d := WriteAll(base, disk, ns);
    ListedFilesAfterWrites(base, disk, ns);
    WriteAllReads(base, disk, ns);
    forall m ensures ListedNote(base, d, m) <==> m in ns {
      ListedNoteIff(base, d, ns, m);
    }
  }

  /** A `bad.json` holding `{id: 'bad', title: 123}` is skipped by listing and fails a
      direct read. */
  lemma BadFileSkipped(base: string)
    ensures var bad := JObj(map["id" := JStr("bad"), "title" := JNum(123)]);
            var disk := map[NotePath(base, "bad") := Stored(bad)];
            ListedFiles(base, disk) == {} && ReadNote(base, disk, "bad").Err?
  {
    var bad := JObj(map["id" := JStr("bad"), "title" := JNum(123)]);
    var disk := map[NotePath(base, "bad") := Stored(bad)];
    BadNoteRejected();
    forall f | f in DirEntries(disk, NotesDir(base)) ensures !Listable(base, disk, f) {
      EntryIff(disk, NotesDir(base), f);
      assert NotePath(base, "bad") == NotesDir(base) + "bad.json";
      AppendInjective(NotesDir(base), f, "bad.json");
      assert Stem(f) == "bad";
    }
  }

  /** After deleting a note, reading it fails. */
  lemma DeletedNoteUnreadable(base: string, disk: Disk, id: string)
    ensures ReadNote(base, disk - {NotePath(base, id)}, id) == Err(FileNotFound(NotePath(base, id)))
  {
  }

  // ---------------------------------------------------------------- the store object

  class FileStore {
    const basePath: string
    var disk: Disk

    /** A store over `basePath`; creating the directory structure is not modelled. */
    constructor (basePath: string, disk: Disk)
      ensures this.basePath == basePath && this.disk == disk
    {
      this.basePath := basePath;
      this.disk := disk;
    }

    /** `atomicWrite`: write `<path>.tmp`, rename it onto `path`; on failure remove the
        temporary file if it exists and report the error. The target only ever holds
        its old contents or the complete new value. */
    method AtomicWrite(path: string, data: Json, fault: Fault) returns (r: Outcome<Error>)
      modifies this
      ensures r == (if fault.NoFault? then Pass else Fail(IoFailure(path)))
      ensures disk == if fault.NoFault? then Committed(old(disk), path, data) else Abandoned(old(disk), path)
      ensures TempPath(path) !in disk
    {
      var tempPath := TempPath(path);
      PathsDistinct("", "", path);
      var ok := true;
      match fault {
        case NoFault =>
          disk := disk[tempPath := Stored(data)];
          assert path in disk ==> disk[path] == old(disk)[path];
          disk := (disk - {tempPath})[path := disk[tempPath]];
        case OutputFails(partial) =>
          if partial {
            disk := disk[tempPath := Garbled];
          }
          ok := false;
        case RenameFails =>
          disk := disk[tempPath := Stored(data)];
          ok := false;
      }
      if ok {
        r := Pass;
      } else {
        assert path in disk ==> disk[path] == old(disk)[path];
        if tempPath in disk {
          disk := disk - {tempPath};
        }
        r := Fail(IoFailure(path));
      }
    }

    /** `writeNote`: validate first (an invalid value changes nothing), then write
        atomically to the note's own path. */
    method WriteNote(note: Json, fault: Fault) returns (r: Outcome<Error>)
      modifies this
      ensures !IsNote(note) ==> r == Fail(InvalidValue) && disk == old(disk)
      ensures IsNote(note) ==> var path := NotePath(basePath, note.fields["id"].s);
        && r == (if fault.NoFault? then Pass else Fail(IoFailure(path)))
        && disk == (if fault.NoFault? then Committed(old(disk), path, note) else Abandoned(old(disk), path))
    {
      if ParseNote(note).None? {
        return Fail(InvalidValue);
      }
      r := AtomicWrite(NotePath(basePath, note.fields["id"].s), note, fault);
    }

    /** `deleteNote`: remove the note's file if it exists; an absent note is no error. */
    method DeleteNote(id: string)
      modifies this
      ensures disk == old(disk) - {NotePath(basePath, id)}
      ensures NotePath(basePath, id) !in old(disk) ==> disk == old(disk)
    {
      var filePath := NotePath(basePath, id);
      if filePath in disk {
        disk := disk - {filePath};
      }
    }

    /** `writeGraph`: validate against the graph schema, then write atomically. */
    method WriteGraph(graph: Json, fault: Fault) returns (r: Outcome<Error>)
      modifies this
      ensures !IsGraphData(graph) ==> r == Fail(InvalidValue) && disk == old(disk)
      ensures IsGraphData(graph) ==>
        && r == (if fault.NoFault? then Pass else Fail(IoFailure(GraphPath(basePath))))
        && disk == (if fault.NoFault? then Committed(old(disk), GraphPath(basePath), graph)
                    else Abandoned(old(disk), GraphPath(basePath)))
    {
      if ParseGraph(graph).None? {
        return Fail(InvalidValue);
      }
      r := AtomicWrite(GraphPath(basePath), graph, fault);
    }

    /** `readdir`: the entries of `dir`, each once, in an order the file system picks. */
    method ReadDir(dir: string) returns (names: seq<string>)
      ensures Distinct(names)
      ensures forall f :: f in names <==> f in DirEntries(disk, dir)
    {
      var left := DirEntries(disk, dir);
      names := [];
      while left != {}
        invariant left <= DirEntries(disk, dir)
        invariant forall f :: f in names <==> f in DirEntries(disk, dir) && f !in left
        invariant Distinct(names)
        decreases left
      {
        var f :| f in left;
        names := names + [f];
        left := left - {f};
      }
    }

    /** `listNotes`: one note for every `.json` entry of the notes directory that reads
        as a valid note; unreadable or invalid entries are skipped, never fatal. */
    method ListNotes() returns (notes: seq<Note>, ghost files: seq<string>)
      ensures Distinct(files)
      ensures forall f :: f in files <==> f in DirEntries(disk, NotesDir(basePath))
      ensures notes == CollectNotes(basePath, disk, files)
      ensures |notes| == |ListedFiles(basePath, disk)|
      ensures forall n :: n in notes <==> ListedNote(basePath, disk, n)
    {
      var names := ReadDir(NotesDir(basePath));
      files := names;
      notes := CollectNotes(basePath, disk, names);
      CollectCount(basePath, disk, files);
      assert ListableIn(basePath, disk, files) == ListedFiles(basePath, disk);
      forall n ensures n in notes <==> ListedNote(basePath, disk, n) {
        CollectMembership(basePath, disk, files, n);
      }
    }
  }

  lemma WriteAllStep(base: string, disk: Disk, ns: seq<Note>, i: nat)
    requires i < |ns|
    ensures WriteAll(base, disk, ns[..i + 1]) == Committed(WriteAll(base, disk, ns[..i]), NotePath(base, ns[i].id), NoteJson(ns[i]))
  {
    assert ns[..i + 1][..i] == ns[..i];
  }

  /** The listing scenario end to end: write each note, every write succeeding, into a
      store whose notes directory is empty, then list: N distinct notes come back. */
  method WriteAndList(store: FileStore, ns: seq<Note>) returns (listed: seq<Note>)
    requires DirEntries(store.disk, NotesDir(store.basePath)) == {}
    requires DistinctIds(ns) && PlainIds(ns)
    modifies store
    ensures |listed| == |ns|
    ensures forall m :: m in listed <==> m in ns
  {
    ghost var d0 := store.disk;
    var i := 0;
    while i < |ns|
      invariant 0 <= i <= |ns|
      invariant store.disk == WriteAll(store.basePath, d0, ns[..i])
    {
      NoteRoundTrip(ns[i]);
      WriteAllStep(store.basePath, d0, ns, i);
      var _ := store.WriteNote(NoteJson(ns[i]), NoFault);
      i := i + 1;
    }
    assert ns[..i] == ns;
    ghost var files;
    listed, files := store.ListNotes();
    ListedFilesAfterWrites(store.basePath, d0, ns);
    ListingAfterWrites(store.basePath, d0, ns);
  }
}
