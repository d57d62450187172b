/**
 * The Markdown note-taking page: a list of notes and folders, the active note
 * and its tab, search, the editor's Markdown insertion, and the delete, tag
 * and rename dialogs. Ids (`uuidv4()`) and timestamps (`new Date()`) are
 * parameters; prompts are parameters whose `None` is a cancelled prompt.
 */
module NoteTaking {
  import opened Js

  datatype NoteFile = NoteFile(
    id: string, name: string, content: string, path: string, tags: seq<string>,
    createdAt: string, updatedAt: string)

  datatype Folder = Folder(id: string, name: string, path: string)

  const NewNoteName: string := "New Note"
  const StarterContent: string := "# New Note\n\nStart writing here..."

  /** The note `handleNewFile` creates. */
  function NewNote(id: string, now: string): NoteFile
  {
    NoteFile(id, NewNoteName, StarterContent, "/", [], now, now)
  }

  predicate DistinctIds(files: seq<NoteFile>)
  {
    forall i, j :: 0 <= i < j < |files| ==> files[i].id != files[j].id
  }

  predicate NoDuplicates(tags: seq<string>)
  {
    forall i, j :: 0 <= i < j < |tags| ==> tags[i] != tags[j]
  }

  // ---------------------------------------------------------------------------
  // Search
  // ---------------------------------------------------------------------------

  /** Some tag of `f` contains `t` (`f.tags.some(...)`). */
  predicate SomeTagIncludes(f: NoteFile, t: string)
  {
    exists i :: 0 <= i < |f.tags| && Includes(ToLower(f.tags[i]), t)
  }

  /** The search test: the lower-cased term occurs in the lower-cased name, content or a tag. */
  predicate Matches(f: NoteFile, term: string)
  {
    var t := ToLower(term);
    Includes(ToLower(f.name), t) || Includes(ToLower(f.content), t) || SomeTagIncludes(f, t)
  }

  /** `filteredFiles` */
  function FilteredFiles(files: seq<NoteFile>, term: string): seq<NoteFile>
  {
    Filter(files, (f: NoteFile) => Matches(f, term))
  }

  /**
   * A note is listed iff it matches the search term, in the list's own order
   * (listing notes `a + b` lists `a`'s matches, then `b`'s).
   */
  lemma FilteredFilesSpec(files: seq<NoteFile>, term: string)
    ensures forall i :: 0 <= i < |FilteredFiles(files, term)| ==>
      FilteredFiles(files, term)[i] in files && Matches(FilteredFiles(files, term)[i], term)
    ensures forall i :: 0 <= i < |files| && Matches(files[i], term) ==> files[i] in FilteredFiles(files, term)
    ensures forall a, b :: files == a + b ==> FilteredFiles(files, term) == FilteredFiles(a, term) + FilteredFiles(b, term)
  {
    forall a, b | files == a + b
      ensures FilteredFiles(files, term) == FilteredFiles(a, term) + FilteredFiles(b, term)
    {
      FilterAppend(a, b, (f: NoteFile) => Matches(f, term));
    }
  }

  /** An empty search lists every note. */
  lemma EmptySearchListsAll(files: seq<NoteFile>)
    ensures FilteredFiles(files, "") == files
  {
    assert ToLower("") == "";
    forall i | 0 <= i < |files| ensures Matches(files[i], "") {
      IncludesEmpty(ToLower(files[i].name));
    }
    FilterKeepsAll(files, (f: NoteFile) => Matches(f, ""));
  }

  // ---------------------------------------------------------------------------
  // Markdown insertion
  // ---------------------------------------------------------------------------

  /** `insertMarkdown`'s new content: the selection [start, end) replaced by `markdown`, with JavaScript's `substring` clamping. */
  function Splice(content: string, start: int, end: int, markdown: string): string
  {
    Substring(content, 0, start) + markdown + SubstringFrom(content, end)
  }

  /**
   * For a selection inside the content, the selection is replaced by the
   * Markdown: the text before and after it is kept, the length changes by
   * |markdown| - (end - start), and the cursor position start + |markdown|
   * lies just after the inserted Markdown.
   */
  lemma SpliceSpec(content: string, start: int, end: int, markdown: string)
    requires 0 <= start <= end <= |content|
    ensures var r := Splice(content, start, end, markdown);
      && r == content[..start] + markdown + content[end..]
      && |r| == |content| - (end - start) + |markdown|
      && start + |markdown| <= |r|
      && r[..start + |markdown|] == content[..start] + markdown
      && r[start + |markdown|..] == content[end..]
  {
    var r := Splice(content, start, end, markdown);
    assert r == content[..start] + markdown + content[end..];
    assert r[..start + |markdown|] == content[..start] + markdown;
  }

  // ---------------------------------------------------------------------------
  // List edits
  // ---------------------------------------------------------------------------

  /** `files.map(f => f.id === id ? updated : f)` */
  function ReplaceById(files: seq<NoteFile>, id: string, updated: NoteFile): (r: seq<NoteFile>)
    ensures |r| == |files|
  {
    MapSeq(files, (f: NoteFile) => if f.id == id then updated else f)
  }

  /**
   * Replacing the note `id` by a note with the same id changes that entry only:
   * every other note is kept in place and the ids stay distinct.
   */
  lemma ReplaceByIdSpec(files: seq<NoteFile>, id: string, updated: NoteFile)
    requires updated.id == id
    ensures var r := ReplaceById(files, id, updated);
      && (forall i :: 0 <= i < |files| ==> r[i].id == files[i].id)
      && (forall i :: 0 <= i < |files| && files[i].id != id ==> r[i] == files[i])
      && (forall i :: 0 <= i < |files| && files[i].id == id ==> r[i] == updated)
      && (DistinctIds(files) ==> DistinctIds(r))
  {
  }

  /** `handleContentChange`'s map: the note `id` gets the new content and timestamp. */
  function SetContentById(files: seq<NoteFile>, id: string, value: string, now: string): (r: seq<NoteFile>)
    ensures |r| == |files|
  {
    MapSeq(files, (f: NoteFile) => if f.id == id then f.(content := value, updatedAt := now) else f)
  }

  /**
   * A content change touches the content (and timestamp) of the note `id`
   * only: names, tags, paths and ids are kept, and so is every other note.
   */
  lemma SetContentByIdSpec(files: seq<NoteFile>, id: string, value: string, now: string)
    ensures var r := SetContentById(files, id, value, now);
      && (forall i :: 0 <= i < |files| ==>
            r[i].id == files[i].id && r[i].name == files[i].name && r[i].tags == files[i].tags
            && r[i].path == files[i].path)
      && (forall i :: 0 <= i < |files| && files[i].id == id ==> r[i].content == value)
      && (forall i :: 0 <= i < |files| && files[i].id != id ==> r[i] == files[i])
      && (DistinctIds(files) ==> DistinctIds(r))
  {
  }

  /** `confirmDeleteFile`'s filter. */
  function WithoutFile(files: seq<NoteFile>, id: string): seq<NoteFile>
  {
    Filter(files, (f: NoteFile) => f.id != id)
  }

  /** Deleting removes the note `id` and keeps every other note, in order. */
  lemma WithoutFileSpec(files: seq<NoteFile>, id: string)
    ensures var r := WithoutFile(files, id);
      && (forall i :: 0 <= i < |r| ==> r[i].id != id && r[i] in files)
      && (forall i :: 0 <= i < |files| && files[i].id != id ==> files[i] in r)
      && (InIds(files, id) ==> |r| < |files|)
  {
    if InIds(files, id) {
      FilterShorter(files, (f: NoteFile) => f.id != id);
    }
  }

  predicate InIds(files: seq<NoteFile>, id: string)
  {
    exists i :: 0 <= i < |files| && files[i].id == id
  }

  /** `handleAddTag`'s test: a non-empty tag not yet on the note. */
  predicate TagAccepted(tags: seq<string>, answer: Option<string>)
  {
    answer.Some? && answer.value != "" && answer.value !in tags
  }

  /** Adding only accepted tags keeps a note's tags duplicate-free, and the tag is then present. */
  lemma AddTagKeepsTagsDistinct(tags: seq<string>, answer: Option<string>)
    requires NoDuplicates(tags) && TagAccepted(tags, answer)
    ensures NoDuplicates(tags + [answer.value]) && answer.value in tags + [answer.value]
  {
  }

  // ---------------------------------------------------------------------------
  // The page
  // ---------------------------------------------------------------------------

  class NoteApp {
    var files: seq<NoteFile>
    var folders: seq<Folder>
    var activeFile: Option<NoteFile>
    var activeTab: Option<string>
    var searchTerm: string
    var isDeleteDialogOpen: bool
    var fileToDelete: Option<NoteFile>
    var isRenameDialogOpen: bool
    var newFileName: string
    /** The cursor position the editor is given after an insertion. */
    var cursor: int
    /**
     * The note list as it was when the active note last changed: the toolbar's
     * and the Ctrl+S/B/I shortcuts' handlers are rebuilt only then and keep
     * the list of that moment.
     */
    var editorFiles: seq<NoteFile>
    /**
     * Whether the active note is the very object listed in `files` under its
     * id (true after a selection, a deletion, a tag, a rename or a save; false
     * after typing, which builds the list entry and the active note apart).
     */
    var activeIsEntry: bool
    /** `previewMode === 'side-by-side'`: only then is the editor's textarea on the page. */
    var sideBySide: bool

    /** Note ids are distinct, and a shared active note is in the list. */
    predicate Valid()
      reads this
    {
      && DistinctIds(files) && DistinctIds(editorFiles)
      && (activeIsEntry ==> activeFile.Some? && activeFile.value in files)
    }

    /** The initial page: the two starter notes and folders, the first note open. */
    constructor (initialFiles: seq<NoteFile>, initialFolders: seq<Folder>)
      requires |initialFiles| > 0 && DistinctIds(initialFiles)
      ensures Valid() && files == initialFiles && folders == initialFolders && editorFiles == initialFiles
      ensures activeFile == Some(initialFiles[0]) && activeTab == Some(initialFiles[0].id)
      ensures searchTerm == "" && !isDeleteDialogOpen && fileToDelete == None
      ensures !isRenameDialogOpen && newFileName == ""
      ensures activeIsEntry && !sideBySide
    {
      files, folders := initialFiles, initialFolders;
      activeFile, activeTab := Some(initialFiles[0]), Some(initialFiles[0].id);
      searchTerm := "";
      isDeleteDialogOpen, fileToDelete := false, None;
      isRenameDialogOpen, newFileName := false, "";
      cursor := 0;
      editorFiles := initialFiles;
      activeIsEntry, sideBySide := true, false;
    }

    /**
     * `handleFileSelect` on a note of the list: it becomes the active note and
     * tab. Clicking the object that is already active changes no state, so the
     * editor's handlers are not rebuilt and keep their list; any other note
     * rebuilds them on the current list.
     */
    method FileSelect(file: NoteFile)
      requires Valid() && file in files
      modifies this`activeFile, this`activeTab, this`editorFiles, this`activeIsEntry
      ensures Valid() && activeFile == Some(file) && activeTab == Some(file.id) && activeIsEntry
      ensures old(activeIsEntry) && old(activeFile) == Some(file) ==> editorFiles == old(editorFiles)
      ensures !(old(activeIsEntry) && old(activeFile) == Some(file)) ==> editorFiles == files
    {
      if !(activeIsEntry && activeFile == Some(file)) {
        editorFiles := files;
      }
      activeFile := Some(file);
      activeTab := Some(file.id);
      activeIsEntry := true;
    }

    /** The preview button: switch between full-page preview and the side-by-side editor. */
    method TogglePreview()
      modifies this`sideBySide
      ensures sideBySide == !old(sideBySide)
    {
      sideBySide := !sideBySide;
    }

    /** `handleNewFile`: append one starter note and open it. */
    method NewFile(freshId: string, now: string)
      requires Valid() && !InIds(files, freshId)
      modifies this`files, this`activeFile, this`activeTab, this`editorFiles, this`activeIsEntry
      ensures Valid()
      ensures files == old(files) + [NewNote(freshId, now)] && |files| == |old(files)| + 1
      ensures activeFile == Some(NewNote(freshId, now)) && activeTab == Some(freshId)
      ensures editorFiles == files && activeIsEntry
      ensures files[|files| - 1].tags == [] && files[|files| - 1].path == "/"
      ensures files[|files| - 1].content == StarterContent
    {
      var note := NewNote(freshId, now);
      assert activeIsEntry ==> activeFile.value.id != freshId;
      files := files + [note];
      FileSelect(note);
    }

    /** `handleNewFolder` with the prompt's answer: a non-empty name adds a folder at "/". */
    method NewFolder(answer: Option<string>, freshId: string)
      modifies this`folders
      ensures answer.Some? && answer.value != "" ==> folders == old(folders) + [Folder(freshId, answer.value, "/")]
      ensures !(answer.Some? && answer.value != "") ==> folders == old(folders)
    {
      if answer.Some? && answer.value != "" {
        folders := folders + [Folder(freshId, answer.value, "/")];
      }
    }

    /**
     * `handleContentChange(value)` with `base` the list the handler captured:
     * the active note's entry and the active note get the new content
     * (`listTime` and `activeTime` are the two `new Date()` readings).
     */
    method ContentChangeOn(base: seq<NoteFile>, value: string, listTime: string, activeTime: string)
      requires Valid() && DistinctIds(base)
      modifies this`files, this`activeFile, this`editorFiles, this`activeIsEntry
      ensures Valid()
      ensures old(activeFile).Some? ==>
        var a := old(activeFile).value;
        && files == SetContentById(base, a.id, value, listTime)
        && activeFile == Some(a.(content := value, updatedAt := activeTime))
        && (forall i :: 0 <= i < |files| && files[i].id == a.id ==> files[i].content == activeFile.value.content)
        && editorFiles == files && !activeIsEntry
      ensures old(activeFile).None? ==>
        files == old(files) && activeFile == old(activeFile) && editorFiles == old(editorFiles)
        && activeIsEntry == old(activeIsEntry)
    {
      if activeFile.Some? {
        var a := activeFile.value;
        SetContentByIdSpec(base, a.id, value, listTime);
        files := SetContentById(base, a.id, value, listTime);
        activeFile := Some(a.(content := value, updatedAt := activeTime));
        editorFiles := files;
        activeIsEntry := false;
      }
    }

    /** Typing in the editor: `handleContentChange` on the current list. */
    method ContentChange(value: string, listTime: string, activeTime: string)
      requires Valid()
      modifies this`files, this`activeFile, this`editorFiles, this`activeIsEntry
      ensures Valid()
      ensures old(activeFile).Some? ==>
        var a := old(activeFile).value;
        && files == SetContentById(old(files), a.id, value, listTime)
        && activeFile == Some(a.(content := value, updatedAt := activeTime))
        && editorFiles == files && !activeIsEntry
      ensures old(activeFile).None? ==>
        files == old(files) && activeFile == old(activeFile) && editorFiles == old(editorFiles)
        && activeIsEntry == old(activeIsEntry)
    {
      ContentChangeOn(files, value, listTime, activeTime);
    }

    /**
     * `insertMarkdown(markdown)` with the editor's selection [start, end):
     * when there is an active note and the editor's textarea is on the page
     * (side-by-side mode), the active note's content becomes the splice, on
     * the list captured when the active note last changed, and the cursor
     * goes after the Markdown. Otherwise nothing changes.
     */
    method InsertMarkdown(markdown: string, start: int, end: int, listTime: string, activeTime: string)
      requires Valid()
      modifies this`files, this`activeFile, this`editorFiles, this`cursor, this`activeIsEntry
      ensures Valid()
      ensures old(activeFile).Some? && sideBySide ==>
        var a := old(activeFile).value;
        var spliced := Splice(a.content, start, end, markdown);
        && files == SetContentById(old(editorFiles), a.id, spliced, listTime)
        && activeFile == Some(a.(content := spliced, updatedAt := activeTime))
        && cursor == start + |markdown| && editorFiles == files && !activeIsEntry
      ensures !(old(activeFile).Some? && sideBySide) ==>
        && files == old(files) && activeFile == old(activeFile) && cursor == old(cursor)
        && editorFiles == old(editorFiles) && activeIsEntry == old(activeIsEntry)
    {
      if activeFile.Some? && sideBySide {
        var newContent := Splice(activeFile.value.content, start, end, markdown);
        ContentChangeOn(editorFiles, newContent, listTime, activeTime);
        cursor := start + |markdown|;
      }
    }

    /** `handleDeleteFile`: open the confirmation for `file`. */
    method DeleteFile(file: NoteFile)
      modifies this`fileToDelete, this`isDeleteDialogOpen
      ensures fileToDelete == Some(file) && isDeleteDialogOpen
    {
      fileToDelete := Some(file);
      isDeleteDialogOpen := true;
    }

    /**
     * `confirmDeleteFile`: remove the note; if it was the active one, the
     * first remaining note (if any) becomes active, and its id the tab unless
     * that id is empty.
     */
    method ConfirmDelete()
      requires Valid()
      modifies this`files, this`activeFile, this`activeTab, this`isDeleteDialogOpen, this`fileToDelete, this`editorFiles,
               this`activeIsEntry
      ensures Valid()
      ensures old(fileToDelete).None? ==>
        files == old(files) && activeFile == old(activeFile) && activeTab == old(activeTab)
        && isDeleteDialogOpen == old(isDeleteDialogOpen) && fileToDelete == None
        && editorFiles == old(editorFiles) && activeIsEntry == old(activeIsEntry)
      ensures old(fileToDelete).Some? ==>
        var d := old(fileToDelete).value;
        && files == WithoutFile(old(files), d.id)
        && !InIds(files, d.id)
        && (old(activeFile).Some? && old(activeFile).value.id == d.id ==>
              && activeFile == (if |files| > 0 then Some(files[0]) else None)
              && activeTab == (if |files| > 0 && files[0].id != "" then Some(files[0].id) else None)
              && editorFiles == files && activeIsEntry == (|files| > 0))
        && (!(old(activeFile).Some? && old(activeFile).value.id == d.id) ==>
              && activeFile == old(activeFile) && activeTab == old(activeTab) && editorFiles == old(editorFiles)
              && activeIsEntry == old(activeIsEntry))
        && !isDeleteDialogOpen && fileToDelete == None
    {
      if fileToDelete.Some? {
        var d := fileToDelete.value;
        var updated := WithoutFile(files, d.id);
        DeleteKeepsOthers(files, d.id, activeFile);
        files := updated;
        if activeFile.Some? && activeFile.value.id == d.id {
          OpenFirst();
        }
        isDeleteDialogOpen := false;
        fileToDelete := None;
      }
    }

    /** After the active note is deleted: the first remaining note, if any, becomes the active note and tab. */
    method OpenFirst()
      requires DistinctIds(files) && DistinctIds(editorFiles)
      modifies this`activeFile, this`activeTab, this`editorFiles, this`activeIsEntry
      ensures Valid()
      ensures activeFile == (if |files| > 0 then Some(files[0]) else None)
      ensures activeTab == (if |files| > 0 && files[0].id != "" then Some(files[0].id) else None)
      ensures editorFiles == files && activeIsEntry == (|files| > 0)
    {
      activeFile := if |files| > 0 then Some(files[0]) else None;
      activeTab := if |files| > 0 && files[0].id != "" then Some(files[0].id) else None;
      editorFiles := files;
      activeIsEntry := |files| > 0;
    }

    /**
     * `handleAddTag` with the prompt's answer: an accepted tag is appended to
     * the active note's tags, in the list and in the active note alike.
     */
    method AddTag(answer: Option<string>, now: string)
      requires Valid()
      modifies this`files, this`activeFile, this`editorFiles, this`activeIsEntry
      ensures Valid()
      ensures old(activeFile).Some? && TagAccepted(old(activeFile).value.tags, answer) ==>
        var a := old(activeFile).value;
        var u := a.(tags := a.tags + [answer.value], updatedAt := now);
        && files == ReplaceById(old(files), a.id, u) && activeFile == Some(u)
        && (NoDuplicates(a.tags) ==> NoDuplicates(u.tags))
        && editorFiles == files && activeIsEntry == InIds(old(files), a.id)
      ensures !(old(activeFile).Some? && TagAccepted(old(activeFile).value.tags, answer)) ==>
        files == old(files) && activeFile == old(activeFile) && editorFiles == old(editorFiles)
        && activeIsEntry == old(activeIsEntry)
    {
      if activeFile.Some? && TagAccepted(activeFile.value.tags, answer) {
        var a := activeFile.value;
        var u := a.(tags := a.tags + [answer.value], updatedAt := now);
        ReplacedIsListed(files, u);
        ReplaceByIdSpec(files, a.id, u);
        activeIsEntry := InIds(files, a.id);
        files := ReplaceById(files, a.id, u);
        activeFile := Some(u);
        editorFiles := files;
      }
    }

    /** `handleRenameFile`: open the rename dialog with the active note's name. */
    method RenameFile()
      modifies this`newFileName, this`isRenameDialogOpen
      ensures activeFile.Some? ==> newFileName == activeFile.value.name && isRenameDialogOpen
      ensures activeFile.None? ==> newFileName == old(newFileName) && isRenameDialogOpen == old(isRenameDialogOpen)
    {
      if activeFile.Some? {
        newFileName := activeFile.value.name;
        isRenameDialogOpen := true;
      }
    }

    /** The rename dialog's text field. */
    method SetNewFileName(value: string)
      modifies this`newFileName
      ensures newFileName == value
    {
      newFileName := value;
    }

    /** `confirmRenameFile`: a non-empty new name replaces the active note's name. */
    method ConfirmRename(now: string)
      requires Valid()
      modifies this`files, this`activeFile, this`isRenameDialogOpen, this`editorFiles, this`activeIsEntry
      ensures Valid()
      ensures old(activeFile).Some? && newFileName != "" ==>
        var a := old(activeFile).value;
        var u := a.(name := newFileName, updatedAt := now);
        && files == ReplaceById(old(files), a.id, u) && activeFile == Some(u) && !isRenameDialogOpen
        && editorFiles == files && activeIsEntry == InIds(old(files), a.id)
      ensures !(old(activeFile).Some? && newFileName != "") ==>
        && files == old(files) && activeFile == old(activeFile) && isRenameDialogOpen == old(isRenameDialogOpen)
        && editorFiles == old(editorFiles) && activeIsEntry == old(activeIsEntry)
    {
      if activeFile.Some? && newFileName != "" {
        var a := activeFile.value;
        var u := a.(name := newFileName, updatedAt := now);
        ReplacedIsListed(files, u);
        ReplaceByIdSpec(files, a.id, u);
        activeIsEntry := InIds(files, a.id);
        files := ReplaceById(files, a.id, u);
        activeFile := Some(u);
        isRenameDialogOpen := false;
        editorFiles := files;
      }
    }

    /** `handleSave` with `base` the list the handler captured: the active note's timestamp is refreshed. */
    method SaveOn(base: seq<NoteFile>, now: string)
      requires Valid() && DistinctIds(base)
      modifies this`files, this`activeFile, this`editorFiles, this`activeIsEntry
      ensures Valid()
      ensures old(activeFile).Some? ==>
        var u := old(activeFile).value.(updatedAt := now);
        && files == ReplaceById(base, u.id, u) && activeFile == Some(u)
        && editorFiles == files && activeIsEntry == InIds(base, u.id)
      ensures old(activeFile).None? ==>
        && files == old(files) && activeFile == old(activeFile) && editorFiles == old(editorFiles)
        && activeIsEntry == old(activeIsEntry)
    {
      if activeFile.Some? {
        var u := activeFile.value.(updatedAt := now);
        ReplacedIsListed(base, u);
        ReplaceByIdSpec(base, u.id, u);
        activeIsEntry := InIds(base, u.id);
        files := ReplaceById(base, u.id, u);
        activeFile := Some(u);
        editorFiles := files;
      }
    }

    /** The save button: `handleSave` on the current list. */
    method Save(now: string)
      requires Valid()
      modifies this`files, this`activeFile, this`editorFiles, this`activeIsEntry
      ensures Valid()
      ensures old(activeFile).Some? ==>
        var u := old(activeFile).value.(updatedAt := now);
        && files == ReplaceById(old(files), u.id, u) && activeFile == Some(u)
        && editorFiles == files && activeIsEntry == InIds(old(files), u.id)
      ensures old(activeFile).None? ==>
        && files == old(files) && activeFile == old(activeFile) && editorFiles == old(editorFiles)
        && activeIsEntry == old(activeIsEntry)
    {
      SaveOn(files, now);
    }

    /** Ctrl/Meta + s, b, i: save, or insert bold or italic Markdown, through the captured handlers. */
    method KeyDown(key: string, ctrlOrMeta: bool, start: int, end: int, listTime: string, activeTime: string)
      requires Valid()
      modifies this`files, this`activeFile, this`editorFiles, this`cursor, this`activeIsEntry
      ensures Valid()
      ensures !ctrlOrMeta || key !in ["s", "b", "i"] ==>
        && files == old(files) && activeFile == old(activeFile) && editorFiles == old(editorFiles)
        && activeIsEntry == old(activeIsEntry)
      ensures !(ctrlOrMeta && key in ["b", "i"]) ==> cursor == old(cursor)
      ensures ctrlOrMeta && key == "s" && old(activeFile).Some? ==>
        var u := old(activeFile).value.(updatedAt := listTime);
        && files == ReplaceById(old(editorFiles), u.id, u) && activeFile == Some(u)
        && editorFiles == files && activeIsEntry == InIds(old(editorFiles), u.id)
      ensures ctrlOrMeta && key == "s" && old(activeFile).None? ==>
        && files == old(files) && activeFile == old(activeFile) && editorFiles == old(editorFiles)
        && activeIsEntry == old(activeIsEntry)
      ensures ctrlOrMeta && key in ["b", "i"] && old(activeFile).Some? && sideBySide ==>
        var a := old(activeFile).value;
        var spliced := Splice(a.content, start, end, if key == "b" then "**Bold**" else "*Italic*");
        && files == SetContentById(old(editorFiles), a.id, spliced, listTime)
        && activeFile == Some(a.(content := spliced, updatedAt := activeTime))
        && cursor == start + 8 && editorFiles == files && !activeIsEntry
      ensures ctrlOrMeta && key in ["b", "i"] && !(old(activeFile).Some? && sideBySide) ==>
        && files == old(files) && activeFile == old(activeFile) && cursor == old(cursor)
        && editorFiles == old(editorFiles) && activeIsEntry == old(activeIsEntry)
    {
      if ctrlOrMeta {
        if key == "s" {
          SaveOn(editorFiles, listTime);
        } else if key == "b" {
          InsertMarkdown("**Bold**", start, end, listTime, activeTime);
        } else if key == "i" {
          InsertMarkdown("*Italic*", start, end, listTime, activeTime);
        }
      }
    }
  }

  /** Deleting the note `id` keeps the ids distinct, leaves no note `id` and keeps any other listed note. */
  lemma DeleteKeepsOthers(files: seq<NoteFile>, id: string, active: Option<NoteFile>)
    requires DistinctIds(files)
    ensures var r := WithoutFile(files, id);
      && DistinctIds(r) && !InIds(r, id)
      && (active.Some? && active.value in files && active.value.id != id ==> active.value in r)
  {
    WithoutFileSpec(files, id);
    FilterKeepsDistinct(files, (f: NoteFile) => f.id != id);
    if active.Some? && active.value in files && active.value.id != id {
      var k :| 0 <= k < |files| && files[k] == active.value;
    }
  }

  /** A note put in place of its id's entry is listed whenever that id was. */
  lemma ReplacedIsListed(files: seq<NoteFile>, u: NoteFile)
    ensures InIds(files, u.id) ==> u in ReplaceById(files, u.id, u)
  {
    if InIds(files, u.id) {
      var i :| 0 <= i < |files| && files[i].id == u.id;
      ReplaceByIdSpec(files, u.id, u);
      assert ReplaceById(files, u.id, u)[i] == u;
    }
  }

  lemma FilterKeepsDistinct(files: seq<NoteFile>, p: NoteFile -> bool)
    requires DistinctIds(files)
    ensures DistinctIds(Filter(files, p))
  {
    FilterKeepsDistinctKeys(files, p, (f: NoteFile) => f.id);
  }

  /**
   * Because the toolbar keeps the list of the moment the active note last
   * changed, deleting another note and then inserting Markdown brings the
   * deleted note back: the captured list still holds it.
   */
  lemma InsertAfterDeletingOtherNoteRestoresIt(base: seq<NoteFile>, active: NoteFile, gone: NoteFile,
                                               value: string, now: string)
    requires gone in base && gone.id != active.id
    ensures gone in SetContentById(base, active.id, value, now)
  {
    var i :| 0 <= i < |base| && base[i] == gone;
    assert SetContentById(base, active.id, value, now)[i] == gone;
  }
}
