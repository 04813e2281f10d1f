# Notes app core, modelled in Dafny

This project models the stateful core of a desktop note-taking and worldbuilding
application: the main-process file store that keeps notes, the graph and the project
metadata as JSON files, the schemas those files are validated against, and the
renderer's state stores: the graph editor with its bounded undo/redo history, the
graph load/save normalisation, the settings store and the selected-note store.

Modules (one file each):

- `wrappers.dfy` (`Wrappers`): `Option`, `Result`, `Outcome`.
- `json.dfy` (`Json`): JSON values and JavaScript truthiness (what `||` tests).
- `seqs.dfy` (`Seqs`): `Array.prototype.filter` on sequences, with its laws.
- `schemas.dfy` (`Schemas`): the zod schemas as validity predicates. `parse` either
  fails or returns the typed value with the unknown keys stripped. Encoders, with
  round trips.
- `file_store.dfy` (`FileStore`): the disk is a map from path to file contents. The
  path layout and the reads are functions of the base path and the disk. The class
  `FileStore` holds the disk and performs the atomic write, the note write, delete
  and list, and the graph write. Whether the two steps of the atomic write (writing
  the temporary file, renaming it) fail is an input (`Fault`).
- `graph_store.dfy` (`GraphStore`): the graph editor store as a class with the
  source's five fields. Each method is proved against pure functions (`Pushed`,
  `Undone`, `Redone`, `WithData`, `Detached`). The canvas library's
  `applyNodeChanges`, `applyEdgeChanges` and `addEdge` are function parameters.
- `use_graph.dfy` (`UseGraph`): load normalisation, save projection, the load into
  the store, the drag-stop handler.
- `settings.dfy` (`SettingsStore`): load and optimistic update with rollback. The
  answer of the main process is an input.
- `note_store.dfy` (`NoteStore`): the selected note and its content update.

## Model

| member | source | states |
|---|---|---|
| `Schemas.ParseNote` | src/shared/schemas.ts:3-10 | parsing succeeds iff id, title, content, createdAt, updatedAt are strings and tags is an array of strings; the result is the input with every other key dropped |
| `Schemas.NoteRoundTrip` | src/shared/schemas.ts:3-10 | a note written as JSON is valid and parses back to itself |
| `Schemas.BadNoteRejected` | src/main/FileStore.test.ts:83 | `{id: 'bad', title: 123}` is not a valid note |
| `Schemas.ParseSchemaNode` | src/shared/schemas.ts:12-17 | a valid node (id and label strings, x and y numbers) parses to exactly its four schema keys |
| `Schemas.ParseSchemaEdge` | src/shared/schemas.ts:19-22 | a valid edge (source and target strings) parses to its two keys; node ids are not checked |
| `Schemas.ParseGraph` | src/shared/schemas.ts:24-27 | graph data is valid iff every node and every edge is; nodes and edges come back in order, each stripped to its schema keys |
| `Schemas.GraphRoundTrip` | src/shared/schemas.ts:24-27 | a graph written as JSON is valid and parses back to itself |
| `Schemas.EmptyGraphValid` | src/shared/schemas.ts:24-27 | `{nodes: [], edges: []}` is valid |
| `Schemas.ParseProject` | src/shared/schemas.ts:29-33 | project metadata is valid iff name, created and lastModified are strings; other keys are dropped |
| `Schemas.ProjectRoundTrip` | src/shared/schemas.ts:29-33 | metadata written as JSON parses back to itself |
| `FileStore.NotePathInjective` | src/main/FileStore.ts:22-24 | two ids with the same note path are the same id |
| `FileStore.PathLayout` | src/main/FileStore.ts:22-35 | `NotesDir`, `NotePath`, `GraphPath`, `ProjectPath`, `TempPath`: the notes directory and the graph and project files lie under the base path; a note's file is `<id>.json` directly in the notes directory; a temporary file is its target's path plus `.tmp` |
| `FileStore.EntryIff` | src/main/FileStore.ts:103 | `DirEntries`, what `readdir` lists: a name is listed iff it is non-empty, has no separator, and the directory followed by it is a file on disk |
| `FileStore.PathsDistinct` | src/main/FileStore.ts:22-35 | note, graph and project paths never coincide; a temporary path is never one of them nor its own target |
| `FileStore.TempNotJson` | src/main/FileStore.ts:109-110 | a temporary file name never ends in `.json`, so listing never picks one up |
| `FileStore.SafeRead` | src/main/FileStore.ts:48-59 | fails with file-not-found on an absent path; succeeds iff the file holds JSON the schema accepts, returning what the schema parsed |
| `FileStore.ReadNote` | src/main/FileStore.ts:61-63 | reads `<base>/notes/<id>.json`: fails when absent or invalid, otherwise returns the stored note stripped to the note keys |
| `FileStore.ReadGraph` | src/main/FileStore.ts:78-85 | an absent graph file reads as the empty graph; a present one reads iff it is valid graph data, and then as what the graph schema parses it to |
| `FileStore.ReadProjectMetadata` | src/main/FileStore.ts:92-98 | an absent project file reads as `null` without failing; a present one reads iff it is valid metadata, and then as the metadata the schema parses it to, never as `null` |
| `FileStore.NoteWriteRead` | src/main/FileStore.test.ts:24-37 | after a successful write of a note, reading its id returns the same note |
| `FileStore.GraphWriteRead` | src/main/FileStore.ts:78-90 | after a successful graph write, reading the graph returns the same graph |
| `FileStore.CommittedEffect` | src/main/FileStore.ts:37-38 | `Committed`, the disk after writing the temporary file and renaming it onto the target: the target holds the value, the temporary file is gone, every other file is as it was |
| `FileStore.AbandonedKeepsTarget` | src/main/FileStore.ts:39-45 | `Abandoned`, the disk after a failed write and its cleanup: the temporary file is gone, and every other path, the target included, holds what it held before |
| `FileStore.DeletedNoteUnreadable` | src/main/FileStore.test.ts:39-52 | after a note's file is removed, reading that id fails with file-not-found |
| `FileStore.Stem` | src/main/FileStore.ts:111 | `path.basename(f, '.json')` on a directory entry: a `.json` name loses exactly that suffix, any other name is kept |
| `FileStore.TryRead` | src/main/FileStore.ts:111-114 | reading the entry's note with failures caught: none exactly when the read fails, otherwise the note read |
| `FileStore.CollectNotes` | src/main/FileStore.ts:109-117 | the filter, read and drop-failures pipeline yields at most one note per entry |
| `FileStore.CollectMembership` | src/main/FileStore.ts:109-117 | the listing pipeline yields a note iff some `.json` entry reads as that note |
| `FileStore.CollectCount` | src/main/FileStore.ts:109-117 | over distinct directory entries, the pipeline yields one note per readable `.json` entry, no more, no fewer |
| `FileStore.EntriesAfterCommit` | src/main/FileStore.ts:34-38 | a note write adds `<id>.json` to the notes directory, removes `<id>.json.tmp` and keeps every other entry |
| `FileStore.ListedFilesAfterWrites` | src/main/FileStore.test.ts:54-78 | after writing N notes with distinct ids into an empty notes directory, exactly N files are listable |
| `FileStore.ListingAfterWrites` | src/main/FileStore.test.ts:54-78 | ... and the notes they read as are exactly the notes written |
| `FileStore.BadFileSkipped` | src/main/FileStore.test.ts:80-94 | a `bad.json` holding an invalid note is not listed and a direct read of `bad` fails |
| `FileStore.WriteAndList` | src/main/FileStore.test.ts:54-78 | writing N notes with distinct ids through `WriteNote` and then listing returns N notes, exactly those written |
| `FileStore.FileStore.constructor` | src/main/FileStore.ts:12-15 | the store is rooted at the given base path over the given disk |
| `FileStore.FileStore.AtomicWrite` | src/main/FileStore.ts:34-46 | success: the target holds the new value and no temporary file remains; failure: the error is reported, the temporary file is gone and every other path is unchanged |
| `FileStore.FileStore.WriteNote` | src/main/FileStore.ts:65-69 | an invalid note fails and leaves the disk unchanged; a valid one is written atomically to its id's path |
| `FileStore.FileStore.DeleteNote` | src/main/FileStore.ts:71-76 | the note's file is gone afterwards and nothing else changes; deleting an absent note changes nothing |
| `FileStore.FileStore.WriteGraph` | src/main/FileStore.ts:87-90 | invalid graph data fails and leaves the disk unchanged; valid data is written atomically to the graph path |
| `FileStore.FileStore.ReadDir` | src/main/FileStore.ts:103 | returns every entry of the directory exactly once, in some order |
| `FileStore.FileStore.ListNotes` | src/main/FileStore.ts:100-118 | the result is the listing pipeline run over the directory's entries in the order readdir gave them, each entry once; so one note per `.json` entry that reads as a valid note (two files holding the same note give it twice), exactly the notes those entries read as, invalid entries skipped |
| `GraphStore.Pushed` | src/renderer/src/store/graphStore.ts:122-139 | the history keeps the latest snapshots up to the cursor, ends with the current graph, holds at most 50, and the cursor is on its last entry |
| `GraphStore.Undone` | src/renderer/src/store/graphStore.ts:141-154 | with the cursor above 0 it steps back one and shows that snapshot; otherwise nothing changes; the history is never changed |
| `GraphStore.Redone` | src/renderer/src/store/graphStore.ts:156-167 | with a snapshot after the cursor it steps forward and shows it; otherwise nothing changes; the history is never changed |
| `GraphStore.UndoThenRedo` | src/renderer/src/store/graphStore.ts:141-167 | undo then redo from a cursor above 0 returns to the same cursor and its snapshot |
| `GraphStore.RedoThenUndo` | src/renderer/src/store/graphStore.ts:141-167 | redo then undo returns to the same cursor and its snapshot |
| `GraphStore.PushClearsRedo` | src/renderer/src/store/graphStore.ts:122-167 | after a push, redo does nothing |
| `GraphStore.UndoAfterPush` | src/renderer/src/store/graphStore.ts:122-154 | undo right after a push shows the snapshot the cursor was on before the push, even when the push evicted the oldest snapshot |
| `GraphStore.RemovedIds` | src/renderer/src/store/graphStore.ts:52 | an id is removed iff some change of type `remove` names it |
| `GraphStore.Merged` | src/renderer/src/store/graphStore.ts:103-106 | the node keeps its id, type, label and position; its data has the keys of both records, the update winning |
| `GraphStore.WithData` | src/renderer/src/store/graphStore.ts:99-112 | nodes with the id get the merged data, every other node is unchanged, count and order kept |
| `GraphStore.UpdatesCompose` | src/renderer/src/store/graphStore.ts:99-112 | two data updates of a node equal one update with both records, the later winning |
| `GraphStore.UpdateIdempotent` | src/renderer/src/store/graphStore.ts:99-112 | repeating a data update changes nothing more |
| `GraphStore.DeleteNodeEffect` | src/renderer/src/store/graphStore.ts:114-120 | after deleting an id, the nodes left are exactly the other nodes and the edges left are exactly those touching neither end |
| `Seqs.FilterAppend` | src/renderer/src/store/graphStore.ts:116-117 | filtering keeps the kept elements in their original order |
| `GraphStore.DeleteKeepsConnected` | src/renderer/src/store/graphStore.ts:114-120 | if every edge joined two existing nodes before a delete, it still does after it |
| `GraphStore.DetachedMembership` | src/renderer/src/store/graphStore.ts:51-57 | the node-removal cleanup keeps exactly the edges touching no removed id |
| `GraphStore.UpdateKeepsConnected` | src/renderer/src/store/graphStore.ts:99-112 | a data update keeps every node id, so it keeps every edge connected |
| `GraphStore.GraphStore.constructor` | src/renderer/src/store/graphStore.ts:38-43 | the store starts empty, with no history, cursor -1, not loaded |
| `GraphStore.GraphStore.SetIsLoaded` | src/renderer/src/store/graphStore.ts:45 | sets the loaded flag |
| `GraphStore.GraphStore.SetGraph` | src/renderer/src/store/graphStore.ts:84-91 | shows the given graph; the history is exactly that graph and the cursor is 0 |
| `GraphStore.GraphStore.PushHistory` | src/renderer/src/store/graphStore.ts:122-139 | performs `Pushed` on the store's fields and keeps the history invariant |
| `GraphStore.GraphStore.Undo` | src/renderer/src/store/graphStore.ts:141-154 | performs `Undone` on the store's fields |
| `GraphStore.GraphStore.Redo` | src/renderer/src/store/graphStore.ts:156-167 | performs `Redone` on the store's fields |
| `GraphStore.GraphStore.AddNode` | src/renderer/src/store/graphStore.ts:93-97 | appends the node at the end, then pushes exactly one snapshot |
| `GraphStore.GraphStore.UpdateNodeData` | src/renderer/src/store/graphStore.ts:99-112 | replaces the nodes by `WithData`; edges, history and cursor are untouched |
| `GraphStore.GraphStore.DeleteNode` | src/renderer/src/store/graphStore.ts:114-120 | removes the node and the edges touching it, then pushes one snapshot |
| `GraphStore.GraphStore.OnNodesChange` | src/renderer/src/store/graphStore.ts:47-66 | applies the changes; if some node was removed, drops the edges touching a removed id and pushes one snapshot, otherwise leaves edges and history alone |
| `GraphStore.GraphStore.OnEdgesChange` | src/renderer/src/store/graphStore.ts:68-76 | applies the changes; pushes one snapshot iff some change is a removal |
| `GraphStore.GraphStore.OnConnect` | src/renderer/src/store/graphStore.ts:78-82 | adds the edge, then pushes one snapshot |
| `UseGraph.DataLabel` | src/renderer/src/hooks/useGraph.ts:27 | `n.data?.label` is defined iff the node has data with a `label` key, and is then that value |
| `UseGraph.DisplayLabel` | src/renderer/src/hooks/useGraph.ts:27 | the label shown is `n.label` if truthy, else `n.data.label` if truthy, else `'Untitled'`; an empty string falls through |
| `UseGraph.NormalizeAll` | src/renderer/src/hooks/useGraph.ts:24-28 | normalisation keeps the number and order of nodes |
| `UseGraph.Normalized` | src/renderer/src/hooks/useGraph.ts:24-28 | a normalised node keeps its id; a missing position becomes (0, 0) and a present one is kept; its data keeps every other key and shows the display label |
| `UseGraph.NormalizeIdempotent` | src/renderer/src/hooks/useGraph.ts:24-28 | normalising twice is normalising once |
| `UseGraph.ForSave` | src/renderer/src/hooks/useGraph.ts:47-53 | it fails iff some node has no data; otherwise each node's top-level label is set to its `data.label` and everything else, edges included, is kept |
| `UseGraph.SaveOfLoadedIsStable` | src/renderer/src/hooks/useGraph.ts:24-53 | the save projection of a loaded graph never throws, puts each node's displayed label at its top level, and normalising that projection gives it back unchanged |
| `UseGraph.LoadGraph` | src/renderer/src/hooks/useGraph.ts:19-34 | on success the store shows the normalised nodes and the loaded edges, the history restarts from that graph and the store is marked loaded; a failed load changes nothing |
| `UseGraph.HandleNodeDragStop` | src/renderer/src/hooks/useGraph.ts:66-68 | exactly one history push |
| `SettingsStore.MergedSettings` | src/renderer/src/hooks/useSettings.ts:28 | the merge takes every key of the update and keeps every other key of the current settings |
| `SettingsStore.MergeEmpty` | src/renderer/src/hooks/useSettings.ts:28 | an empty update changes nothing |
| `SettingsStore.MergeIdempotent` | src/renderer/src/hooks/useSettings.ts:28 | applying the same update twice is applying it once |
| `SettingsStore.MergeSequential` | src/renderer/src/hooks/useSettings.ts:28 | two updates in a row equal one update with both, the later winning |
| `SettingsStore.SettingsStore.constructor` | src/renderer/src/hooks/useSettings.ts:11-13 | no settings, not loading |
| `SettingsStore.SettingsStore.LoadSettings` | src/renderer/src/hooks/useSettings.ts:14-23 | the loading flag ends down; on success the settings are the loaded ones, on failure they are unchanged |
| `SettingsStore.SettingsStore.UpdateSettings` | src/renderer/src/hooks/useSettings.ts:24-36 | with no settings nothing happens; on a successful save the settings are the merge; on a failed save they are the settings held before the call |
| `NoteStore.WithContent` | src/renderer/src/store/useStore.ts:20-22 | no selected note stays none; a selected note gets the new content and keeps every other field |
| `NoteStore.ContentUpdateIdempotent` | src/renderer/src/store/useStore.ts:20-22 | setting the same content twice is setting it once |
| `NoteStore.ContentUpdateLastWins` | src/renderer/src/store/useStore.ts:20-22 | of two content updates only the last is visible |
| `NoteStore.SelectedNoteStore.constructor` | src/renderer/src/store/useStore.ts:11-18 | the store starts on the built-in sample note; `createdAt` and `updatedAt` are two separate clock readings |
| `NoteStore.SelectedNoteStore.SetSelectedNote` | src/renderer/src/store/useStore.ts:19 | the selected note becomes the given one, `null` included |
| `NoteStore.SelectedNoteStore.UpdateNoteContent` | src/renderer/src/store/useStore.ts:20-22 | the selected note becomes `WithContent` of the previous one |

## Left out

- Directory watching (`watch`, `close`, src/main/FileStore.ts:120-140): it depends on
  change notifications from the operating system.
- Creating the directory structure (`initStructure`, `ensureDir`) and JSON
  formatting: a directory exists in the model when a file under it exists.
- `path.join` normalisation: paths are plain concatenations with `/`, so an id
  holding `..` or `/` is not resolved the way the file system would resolve it.
- `fs.rename` is one atomic map update. Node's `readdir` may also list
  sub-directories; the model lists only files directly in the directory. A
  sub-directory whose name ends in `.json` would fail to read and be skipped anyway.
- `listNotes` reads the entries with `Promise.all`. The model reads them one after
  the other; reads do not change the disk, so the result is the same.
- Logging (`console.error`) is not modelled.
- `AppMetadataSchema` (src/shared/schemas.ts:35-38) is not used by the file store.
- The settings reads and writes of the main process and the IPC bridge
  (src/main/index.ts, src/preload/index.ts) are not part of this model. The answer
  to a settings load or save is an input.
- src/shared/types.ts declares no `Settings` interface, though useSettings.ts:2 imports
  one. Settings are a key/value record, and a partial update is a record with some of
  its keys.
- The canvas library's `applyNodeChanges`, `applyEdgeChanges` and `addEdge` are
  uninterpreted function parameters.
- The debounced save (src/renderer/src/hooks/useGraph.ts:38-64) is timing
  behaviour. Only the projection it applies is modelled.
- JavaScript numbers (coordinates) are integers.
- The disk round trip of a graph saved from the canvas is not claimed. Nodes loaded
  from disk keep their `x`/`y` through both spreads (src/renderer/src/hooks/useGraph.ts:24-28
  and 48-51), so a graph of such nodes passes `writeGraph`'s schema check
  (src/main/FileStore.ts:88) when every `data.label` is a string. A node created on the
  canvas (src/renderer/src/components/Graph/GraphCanvas.tsx:75-80) has no `x`/`y`, and
  one such node makes `writeGraph` reject the whole graph. Even an accepted graph does
  not come back as saved: `readGraph` strips `position` and `data`, so on reload every
  node is placed at (0, 0) (src/renderer/src/hooks/useGraph.ts:26). The stability lemma
  is about the renderer's own projection only.
- Only the two steps of the atomic write can fail. `FileStore.FileStore.DeleteNote`
  assumes `fs.remove` (src/main/FileStore.ts:74) never fails, and
  `FileStore.FileStore.ListNotes` assumes `fs.ensureDir` and `fs.readdir`
  (src/main/FileStore.ts:102-103) never fail.
- `FileStore.FileStore.AtomicWrite` assumes the cleanup after a failure
  (src/main/FileStore.ts:41-42) never fails. If it did, its error would replace the
  original one and the `.tmp` file would stay; the contract promises the file is gone.
- The renderer's canvas nodes (`position`, `data`) and the shared schema nodes
  (`x`, `y`, `label`) are separate types, modelled as each file writes them.
- The node and edge attributes other than id, type, label, position, data, source
  and target are not modelled; every operation copies a node whole.
- `SettingsStore.SettingsStore.UpdateSettings`: the contract gives the settings after
  the save has answered. The merged value shown while the save is pending, and calls
  interleaving with it, are not stated.
- `UseGraph.LoadGraph`: the load is one step taking the loaded graph or the failure
  as input. The asynchronous request is not modelled.
- UI components, the rich-text editor, the Markdown preview, the theme toggle and
  the autosave slider are left out. They are view code over third-party libraries.
- The 1000-note timing test is left out: the model has no notion of time.
