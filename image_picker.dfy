/**
 * The drag-and-drop image picker (src/DragAndDrop.js; client/src/DragAndDrop.js
 * repeats the same code and adds an upload form, see ImageUploader).
 *
 * `uuid4()` is a supplied function from the position of a file in the
 * batch to a fresh id, and a `FileReader` result is a supplied string.
 */
module ImagePicker {

  /** `fileTypes`: the MIME types accepted. */
  const FileTypes: seq<string> := ["image/png", "image/jpeg", "image/gif", "image/svg+xml"]

  /** A file the browser hands over: its name and MIME type. */
  datatype InputFile = InputFile(name: string, mimeType: string)

  /** An entry of `files`: its id, the file, and its preview (a data URL, empty until loaded). */
  datatype Entry = Entry(id: string, file: InputFile, preview: string)

  /** `fileTypes.includes(type)`. */
  predicate Allowed(mimeType: string)
  {
    mimeType in FileTypes
  }

  /** Exactly PNG, JPEG, GIF and SVG images are accepted. */
  lemma AllowedTypes(mimeType: string)
    ensures Allowed(mimeType) <==>
      mimeType == "image/png" || mimeType == "image/jpeg" || mimeType == "image/gif" || mimeType == "image/svg+xml"
  {
  }

  /** The entries `updateFiles` makes of a batch: one per allowed file, in order, with an empty preview. */
  function Accepted(batch: seq<InputFile>, newId: nat -> string): (entries: seq<Entry>)
    ensures |entries| <= |batch|
    ensures forall k :: 0 <= k < |entries| ==> Allowed(entries[k].file.mimeType) && entries[k].file in batch && entries[k].preview == ""
  {
    if batch == [] then []
    else
      var last := batch[|batch| - 1];
      var earlier := Accepted(batch[..|batch| - 1], newId);
      assert forall e :: e in earlier ==> e.file in batch;
      if Allowed(last.mimeType) then earlier + [Entry(newId(|batch| - 1), last, "")] else earlier
  }

  /** The names `updateFiles` reports as ignored: those of the other files, in order. */
  function Rejected(batch: seq<InputFile>): (names: seq<string>)
    ensures |names| <= |batch|
  {
    if batch == [] then []
    else
      var last := batch[|batch| - 1];
      var earlier := Rejected(batch[..|batch| - 1]);
      if Allowed(last.mimeType) then earlier else earlier + [last.name]
  }

  /**
   * The split keeps the batch's order: the entries of a batch made of two
   * halves are those of the first half followed by those of the second,
   * whose ids continue the numbering.
   */
  lemma {:induction false} AcceptedAppend(a: seq<InputFile>, b: seq<InputFile>, newId: nat -> string)
    ensures Accepted(a + b, newId) == Accepted(a, newId) + Accepted(b, (k: nat) => newId(|a| + k))
  {
    var shifted := (k: nat) => newId(|a| + k);
    if b == [] {
      assert a + b == a;
    } else {
      var earlier := b[..|b| - 1];
      assert (a + b)[..|a + b| - 1] == a + earlier;
      assert (a + b)[|a + b| - 1] == b[|b| - 1];
      AcceptedAppend(a, earlier, newId);
      assert shifted(|b| - 1) == newId(|a + b| - 1);
    }
  }

  /** The ignored names keep the batch's order too: those of the first half, then those of the second. */
  lemma {:induction false} RejectedAppend(a: seq<InputFile>, b: seq<InputFile>)
    ensures Rejected(a + b) == Rejected(a) + Rejected(b)
  {
    if b == [] {
      assert a + b == a;
    } else {
      var earlier := b[..|b| - 1];
      assert (a + b)[..|a + b| - 1] == a + earlier;
      assert (a + b)[|a + b| - 1] == b[|b| - 1];
      RejectedAppend(a, earlier);
    }
  }

  /** A single file lands on its side alone: an entry with the first id, or its name. */
  lemma SplitSingle(f: InputFile, newId: nat -> string)
    ensures Accepted([f], newId) == if Allowed(f.mimeType) then [Entry(newId(0), f, "")] else []
    ensures Rejected([f]) == if Allowed(f.mimeType) then [] else [f.name]
  {
    assert [f][..0] == [];
  }

  /**
   * Every file of the batch lands in exactly one place: an entry for it if
   * its type is allowed, its name among the ignored ones otherwise.
   */
  lemma EachFileLandsOnce(batch: seq<InputFile>, newId: nat -> string)
    ensures |Accepted(batch, newId)| + |Rejected(batch)| == |batch|
    ensures forall i :: 0 <= i < |batch| && Allowed(batch[i].mimeType) ==>
      Entry(newId(i), batch[i], "") in Accepted(batch, newId)
    ensures forall i :: 0 <= i < |batch| && !Allowed(batch[i].mimeType) ==> batch[i].name in Rejected(batch)
  {
    SplitCount(batch, newId);
    AcceptedHasEachAllowed(batch, newId);
    RejectedHasEachOther(batch);
  }

  /** Accepted entries and ignored names together number the batch. */
  lemma {:induction false} SplitCount(batch: seq<InputFile>, newId: nat -> string)
    ensures |Accepted(batch, newId)| + |Rejected(batch)| == |batch|
  {
    if batch != [] {
      SplitCount(batch[..|batch| - 1], newId);
    }
  }

  /** Each allowed file of the batch has its entry, with the id of its position. */
  lemma {:induction false} AcceptedHasEachAllowed(batch: seq<InputFile>, newId: nat -> string)
    ensures forall i :: 0 <= i < |batch| && Allowed(batch[i].mimeType) ==>
      Entry(newId(i), batch[i], "") in Accepted(batch, newId)
  {
    if batch != [] {
      var n := |batch| - 1;
      var earlier, last := batch[..n], batch[n];
      AcceptedHasEachAllowed(earlier, newId);
      ConcatLast(batch);
      AcceptedSnoc(earlier, last, newId);
      var tail := if Allowed(last.mimeType) then [Entry(newId(n), last, "")] else [];
      forall i | 0 <= i < |batch| && Allowed(batch[i].mimeType)
        ensures Entry(newId(i), batch[i], "") in Accepted(batch, newId)
      {
        if i < n {
          assert batch[i] == earlier[i];
          InConcat(Entry(newId(i), earlier[i], ""), Accepted(earlier, newId), tail);
        } else {
          assert tail[0] == Entry(newId(i), batch[i], "");
        }
      }
    }
  }

  /** The name of each other file of the batch is among the ignored ones. */
  lemma {:induction false} RejectedHasEachOther(batch: seq<InputFile>)
    ensures forall i :: 0 <= i < |batch| && !Allowed(batch[i].mimeType) ==> batch[i].name in Rejected(batch)
  {
    if batch != [] {
      var n := |batch| - 1;
      var earlier, last := batch[..n], batch[n];
      RejectedHasEachOther(earlier);
      ConcatLast(batch);
      RejectedSnoc(earlier, last);
      var tail := if Allowed(last.mimeType) then [] else [last.name];
      forall i | 0 <= i < |batch| && !Allowed(batch[i].mimeType)
        ensures batch[i].name in Rejected(batch)
      {
        if i < n {
          assert batch[i] == earlier[i];
          InConcat(earlier[i].name, Rejected(earlier), tail);
        } else {
          assert tail[0] == batch[i].name;
        }
      }
    }
  }

  /** One step of the split at the end of the batch: the last file's entry, if any, comes last. */
  lemma AcceptedSnoc(earlier: seq<InputFile>, last: InputFile, newId: nat -> string)
    ensures Accepted(earlier + [last], newId)
         == Accepted(earlier, newId) + if Allowed(last.mimeType) then [Entry(newId(|earlier|), last, "")] else []
  {
    assert (earlier + [last])[..|earlier|] == earlier;
  }

  /** One step of the split at the end of the batch: the last file's name, if ignored, comes last. */
  lemma RejectedSnoc(earlier: seq<InputFile>, last: InputFile)
    ensures Rejected(earlier + [last]) == Rejected(earlier) + if Allowed(last.mimeType) then [] else [last.name]
  {
    assert (earlier + [last])[..|earlier|] == earlier;
  }

  /** A non-empty sequence is its front followed by its last element. */
  lemma ConcatLast<T>(s: seq<T>)
    requires s != []
    ensures s == s[..|s| - 1] + [s[|s| - 1]]
  {
  }

  /** An element of the left operand is an element of the concatenation. */
  lemma InConcat<T>(x: T, s: seq<T>, t: seq<T>)
    requires x in s
    ensures x in s + t
  {
  }

  /**
   * `updateFiles`' loop: walks the batch once, pushing an entry for each
   * allowed file and the name of each other file.
   */
  method SplitFiles(batch: seq<InputFile>, newId: nat -> string) returns (newFiles: seq<Entry>, ignoredFiles: seq<string>)
    ensures newFiles == Accepted(batch, newId)
    ensures ignoredFiles == Rejected(batch)
  {
    newFiles, ignoredFiles := [], [];
    var i := 0;
    while i < |batch|
      invariant 0 <= i <= |batch|
      invariant newFiles == Accepted(batch[..i], newId)
      invariant ignoredFiles == Rejected(batch[..i])
    {
      if batch[i].mimeType in FileTypes {
        newFiles := newFiles + [Entry(newId(i), batch[i], "")];
      } else {
        ignoredFiles := ignoredFiles + [batch[i].name];
      }
      assert batch[..i + 1][..i] == batch[..i];
      i := i + 1;
    }
    assert batch[..i] == batch;
  }

  /** `files.filter(item => item.id !== id)`. */
  function RemoveById(files: seq<Entry>, id: string): (kept: seq<Entry>)
    ensures |kept| <= |files|
    ensures forall e :: e in kept <==> e in files && e.id != id
  {
    if files == [] then []
    else
      var rest := RemoveById(files[1..], id);
      assert forall e :: e in files <==> e == files[0] || e in files[1..];
      if files[0].id != id then [files[0]] + rest else rest
  }

  /** One step of the filter: the first entry is kept iff its id differs. */
  lemma RemoveByIdCons(x: Entry, rest: seq<Entry>, id: string)
    ensures RemoveById([x] + rest, id) == (if x.id != id then [x] else []) + RemoveById(rest, id)
  {
    assert ([x] + rest)[1..] == rest;
  }

  /** Splitting off the head of the left operand of a concatenation. */
  lemma ConcatHead<T>(a: seq<T>, b: seq<T>)
    requires a != []
    ensures a == [a[0]] + a[1..]
    ensures a + b == [a[0]] + (a[1..] + b)
  {
    assert a == [a[0]] + a[1..];
  }

  /** Removing keeps the order: removing from a concatenation removes from each side. */
  lemma {:induction false} RemoveByIdAppend(a: seq<Entry>, b: seq<Entry>, id: string)
    ensures RemoveById(a + b, id) == RemoveById(a, id) + RemoveById(b, id)
  {
    if a != [] {
      RemoveByIdAppend(a[1..], b, id);
      ConcatHead(a, b);
      RemoveByIdCons(a[0], a[1..] + b, id);
      RemoveByIdCons(a[0], a[1..], id);
      ConcatAssoc(if a[0].id != id then [a[0]] else [], RemoveById(a[1..], id), RemoveById(b, id));
    } else {
      assert a + b == b;
    }
  }

  /** Concatenation is associative. */
  lemma ConcatAssoc<T>(x: seq<T>, y: seq<T>, z: seq<T>)
    ensures x + (y + z) == (x + y) + z
  {
  }

  /** Removing an id no entry has changes nothing. */
  lemma {:induction false} RemoveAbsentId(files: seq<Entry>, id: string)
    requires forall i :: 0 <= i < |files| ==> files[i].id != id
    ensures RemoveById(files, id) == files
  {
    if files != [] {
      RemoveAbsentId(files[1..], id);
    }
  }

  /** The `load` handler's `files.map(...)`: sets the preview of the entries with that id. */
  function FillPreview(files: seq<Entry>, id: string, preview: string): (filled: seq<Entry>)
    ensures |filled| == |files|
    ensures forall i :: 0 <= i < |files| ==>
      filled[i] == if files[i].id == id then files[i].(preview := preview) else files[i]
  {
    seq(|files|, i requires 0 <= i < |files| =>
      if files[i].id == id then files[i].(preview := preview) else files[i])
  }

  /** The entries whose preview `previewImages` starts to load: no preview yet and an allowed type. */
  function NeedingPreview(files: seq<Entry>): (pending: seq<Entry>)
    ensures forall e :: e in pending <==> e in files && e.preview == "" && Allowed(e.file.mimeType)
  {
    if files == [] then []
    else
      var rest := NeedingPreview(files[1..]);
      assert forall e :: e in files <==> e == files[0] || e in files[1..];
      if files[0].preview == "" && Allowed(files[0].file.mimeType) then [files[0]] + rest else rest
  }

  /** `shouldComponentUpdate`: previews are loaded only when the list grew. */
  function PreviewLoads(current: seq<Entry>, next: seq<Entry>): seq<Entry>
  {
    if |next| > |current| then NeedingPreview(next) else []
  }

  /** Removing entries and filling previews never grow the list, so they start no preview loads. */
  lemma NoLoadsWithoutGrowth(files: seq<Entry>, id: string, preview: string)
    ensures PreviewLoads(files, RemoveById(files, id)) == []
    ensures PreviewLoads(files, FillPreview(files, id, preview)) == []
  {
  }

  /**
   * The picker's state: the drag counter, `dragging`, the accepted entries
   * and the names ignored from the latest batch.
   */
  class DropZone {
    var dragCounter: int
    var dragging: bool
    var files: seq<Entry>
    var ignoredFiles: seq<string>

    constructor ()
      ensures dragCounter == 0 && !dragging && files == [] && ignoredFiles == []
    {
      dragCounter, dragging := 0, false;
      files, ignoredFiles := [], [];
    }

    /**
     * `updateFiles`: the batch's accepted entries are appended, the ignored
     * names replace the previous ones. Returns the entries whose previews
     * `shouldComponentUpdate` then starts to load.
     */
    method UpdateFiles(batch: seq<InputFile>, newId: nat -> string) returns (loads: seq<Entry>)
      modifies this`files, this`ignoredFiles
      ensures files == old(files) + Accepted(batch, newId)
      ensures ignoredFiles == Rejected(batch)
      ensures loads == PreviewLoads(old(files), files)
    {
      var newFiles, ignored := SplitFiles(batch, newId);
      loads := PreviewLoads(files, files + newFiles);
      files := files + newFiles;
      ignoredFiles := ignored;
    }

    /** `handleChange`: files chosen with the input are added when there are any. */
    method ChooseFiles(batch: seq<InputFile>, newId: nat -> string) returns (loads: seq<Entry>)
      modifies this`files, this`ignoredFiles
      ensures batch != [] ==> files == old(files) + Accepted(batch, newId) && ignoredFiles == Rejected(batch)
      ensures batch == [] ==> files == old(files) && ignoredFiles == old(ignoredFiles)
      ensures loads == PreviewLoads(old(files), files)
    {
      if |batch| > 0 {
        loads := UpdateFiles(batch, newId);
      } else {
        loads := [];
      }
    }

    /** `handleDragIn`: count the enter; show the drop box when something is dragged. */
    method DragIn(hasItems: bool)
      modifies this`dragCounter, this`dragging
      ensures dragCounter == old(dragCounter) + 1
      ensures dragging == (hasItems || old(dragging))
    {
      dragCounter := dragCounter + 1;
      if hasItems {
        dragging := true;
      }
    }

    /** `handleDragOut`: count the leave; hide the drop box once the count is back to 0. */
    method DragOut()
      modifies this`dragCounter, this`dragging
      ensures dragCounter == old(dragCounter) - 1
      ensures dragging == (dragCounter != 0 && old(dragging))
    {
      dragCounter := dragCounter - 1;
      if dragCounter == 0 {
        dragging := false;
      }
    }

    /** `handleDrop`: hide the drop box; dropped files are added and the count restarts at 0. */
    method Drop(batch: seq<InputFile>, newId: nat -> string) returns (loads: seq<Entry>)
      modifies this
      ensures !dragging
      ensures batch != [] ==> files == old(files) + Accepted(batch, newId) && ignoredFiles == Rejected(batch) && dragCounter == 0
      ensures batch == [] ==> files == old(files) && ignoredFiles == old(ignoredFiles) && dragCounter == old(dragCounter)
      ensures loads == PreviewLoads(old(files), files)
    {
      dragging := false;
      if |batch| > 0 {
        loads := UpdateFiles(batch, newId);
        dragCounter := 0;
      } else {
        loads := [];
      }
    }

    /** `removeFile`: drop the entries with that id. */
    method RemoveFile(id: string)
      modifies this`files
      ensures files == RemoveById(old(files), id)
      ensures PreviewLoads(old(files), files) == []
    {
      files := RemoveById(files, id);
    }

    /** A `FileReader` finished for the entry `id`: fill in its preview. */
    method LoadPreview(id: string, preview: string)
      modifies this`files
      ensures files == FillPreview(old(files), id, preview)
      ensures PreviewLoads(old(files), files) == []
    {
      files := FillPreview(files, id, preview);
    }
  }
}
