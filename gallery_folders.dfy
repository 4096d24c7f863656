/**
 * The gallery's folder list: fetching, adding, renaming and deleting folders,
 * the rename field's edit toggle, and the extension badge each folder shows.
 * The signed-in user is an input (`None` when nobody is signed in), and so is
 * every backend result. The debounced rename request is left out.
 */
module GalleryFolders {
  import opened Wrappers
  import opened Text

  datatype FolderRow = FolderRow(id: string, name: string, countitem: int, createdAt: string)

  /** The columns the backend fills in for a new folder. */
  datatype Stamp = Stamp(id: string, countitem: int, createdAt: string)

  const NewFolderName: string := "New Folder"

  // ---------------------------------------------------------------------------
  // The extension badge

  /** `p` is the part of `s` after its last ".", or all of `s` when it has none. */
  predicate LastSegment(s: string, p: string)
  {
    |p| <= |s| && s[|s| - |p|..] == p && Lacks(p, '.') && (|p| == |s| || s[|s| - |p| - 1] == '.')
  }

  /** The last piece of a split on "." is the last segment. */
  lemma {:induction false} SplitLastSegment(s: string)
    ensures var parts := Split(s, "."); LastSegment(s, parts[|parts| - 1])
    decreases |s|
  {
    var r := IndexOf(s, ".", 0);
    if r.None? {
      NoDotFound(s);
    } else {
      var i := r.value;
      var rest := s[i + 1..];
      SplitLastSegment(rest);
      var tail := Split(rest, ".");
      var parts := [s[..i]] + tail;
      assert s[i] == '.' by {
        assert OccursAt(s, ".", i);
        assert s[i..i + 1][0] == s[i];
      }
      SegmentAfterDot(s, i, tail[|tail| - 1]);
      assert Split(s, ".") == parts;
      assert parts[|parts| - 1] == tail[|tail| - 1];
    }
  }

  lemma NoDotFound(s: string)
    requires IndexOf(s, ".", 0).None?
    ensures LastSegment(s, s)
  {
    IndexOfFirst(s, ".", 0);
    forall j | 0 <= j < |s| ensures s[j] != '.' {
      if s[j] == '.' {
        assert s[j..j + 1] == ".";
        assert OccursAt(s, ".", j);
      }
    }
  }

  /** The last segment of what follows a "." is the last segment of the whole. */
  lemma SegmentAfterDot(s: string, i: nat, p: string)
    requires i < |s| && s[i] == '.' && LastSegment(s[i + 1..], p)
    ensures LastSegment(s, p)
  {
    var rest := s[i + 1..];
    assert s[|s| - |p|..] == rest[|rest| - |p|..];
    if |p| == |rest| {
      assert s[|s| - |p| - 1] == s[i];
    } else {
      assert s[|s| - |p| - 1] == rest[|rest| - |p| - 1];
    }
  }

  /** A string has exactly one last segment. */
  lemma LastSegmentUnique(s: string, p: string, q: string)
    requires LastSegment(s, p) && LastSegment(s, q)
    ensures p == q
  {
    if |p| != |q| {
      assert false;
    }
  }

  /** `getFileExtension`: `undefined` for "", otherwise the upper-cased last segment, or "FILE" when that is empty. */
  function GetFileExtension(filename: string): (r: Option<string>)
    ensures filename == "" <==> r.None?
  {
    if filename == "" then None
    else
      var parts := Split(filename, ".");
      var ext := ToUpper(parts[|parts| - 1]);
      if ext == "" then Some("FILE") else Some(ext)
  }

  /** The badge is the upper-cased text after the last ".", or "FILE" when that text is empty. */
  lemma FileExtensionIs(filename: string, p: string)
    requires filename != "" && LastSegment(filename, p)
    ensures GetFileExtension(filename) == Some(if p == "" then "FILE" else ToUpper(p))
  {
    var parts := Split(filename, ".");
    var q := parts[|parts| - 1];
    SplitLastSegment(filename);
    LastSegmentUnique(filename, p, q);
    assert |ToUpper(p)| == |p|;
  }

  /** A name without a "." is its own badge, upper-cased. */
  lemma FileExtensionNoDot(filename: string)
    requires filename != "" && Lacks(filename, '.')
    ensures GetFileExtension(filename) == Some(ToUpper(filename))
  {
    assert LastSegment(filename, filename);
    FileExtensionIs(filename, filename);
  }

  /** A name ending in "." gets the badge "FILE". */
  lemma FileExtensionTrailingDot(filename: string)
    requires filename != "" && filename[|filename| - 1] == '.'
    ensures GetFileExtension(filename) == Some("FILE")
  {
    assert LastSegment(filename, "");
    FileExtensionIs(filename, "");
  }

  // ---------------------------------------------------------------------------
  // List updates

  /** The folder list with every folder whose id is `id` renamed to `value`, in place and in order. */
  function Renamed(files: seq<FolderRow>, id: string, value: string): (r: seq<FolderRow>)
    ensures |r| == |files|
    ensures forall i :: 0 <= i < |files| ==> r[i] == if files[i].id == id then files[i].(name := value) else files[i]
  {
    seq(|files|, i requires 0 <= i < |files| => if files[i].id == id then files[i].(name := value) else files[i])
  }

  /** The folder list without the folders whose id is `id`, the others kept in order. */
  function WithoutFolder(files: seq<FolderRow>, id: string): (r: seq<FolderRow>)
  {
    if |files| == 0 then []
    else
      var rest := WithoutFolder(files[1..], id);
      assert files == [files[0]] + files[1..];
      if files[0].id == id then rest else [files[0]] + rest
  }

  /** Exactly the entries with that id go: every other entry keeps its multiplicity. */
  lemma {:induction false} WithoutFolderCounts(files: seq<FolderRow>, id: string)
    ensures forall f :: multiset(WithoutFolder(files, id))[f] == if f.id == id then 0 else multiset(files)[f]
    ensures forall f :: f in WithoutFolder(files, id) <==> f in files && f.id != id
  {
    if |files| > 0 {
      WithoutFolderCounts(files[1..], id);
      assert files == [files[0]] + files[1..];
    }
  }

  /** Removing from a concatenation removes from each part, so the folders left keep their order. */
  lemma {:induction false} WithoutFolderConcat(a: seq<FolderRow>, b: seq<FolderRow>, id: string)
    ensures WithoutFolder(a + b, id) == WithoutFolder(a, id) + WithoutFolder(b, id)
  {
    if |a| > 0 {
      var h, t := a[0], a[1..];
      assert a == [h] + t;
      assert a + b == [h] + (t + b);
      WithoutFolderConcat(t, b, id);
      WithoutFolderCons(h, t + b, id);
      WithoutFolderCons(h, t, id);
    } else {
      assert a + b == b;
    }
  }

  lemma WithoutFolderCons(x: FolderRow, a: seq<FolderRow>, id: string)
    ensures WithoutFolder([x] + a, id) == (if x.id == id then [] else [x]) + WithoutFolder(a, id)
  {
    assert ([x] + a)[1..] == a;
  }

  /** The edit button: the folder being edited stops being edited; any other folder starts being edited. */
  function EditToggled(editingId: Option<string>, id: string): (r: Option<string>)
    ensures r == None <==> editingId == Some(id)
    ensures r.Some? ==> r.value == id
  {
    if editingId == Some(id) then None else Some(id)
  }

  /** On a folder not being edited, the first press starts editing it and the second stops all editing. */
  lemma EditToggleTwice(editingId: Option<string>, id: string)
    requires editingId != Some(id)
    ensures EditToggled(editingId, id) == Some(id)
    ensures EditToggled(EditToggled(editingId, id), id) == None
  {
  }

  // ---------------------------------------------------------------------------
  // The page

  class FolderList {
    var filesData: seq<FolderRow>
    var loading: bool
    var editingId: Option<string>

    constructor()
      ensures filesData == [] && !loading && editingId.None?
    {
      filesData, loading, editingId := [], false, None;
    }

    /** `fetchFiles`: no user changes nothing; an error keeps the list; otherwise the rows, [] for null. */
    method FetchFiles(user: Option<string>, outcome: Response<Option<seq<FolderRow>>>)
      modifies this
      ensures user.None? ==> filesData == old(filesData) && loading == old(loading)
      ensures user.Some? ==> !loading && filesData == (if outcome.Err? then old(filesData) else outcome.value.GetOr([]))
      ensures editingId == old(editingId)
    {
      if user.None? {
        return;
      }
      loading := true;
      match outcome {
        case Err =>
        case Ok(data) => filesData := data.GetOr([]);
      }
      loading := false;
    }

    /** `addNewFile`: a successful insert appends the new "New Folder" row; an error keeps the list. */
    method AddNewFile(user: Option<string>, outcome: Response<Stamp>)
      modifies this
      ensures user.None? ==> filesData == old(filesData) && loading == old(loading)
      ensures user.Some? && outcome.Err? ==> filesData == old(filesData) && !loading
      ensures user.Some? && outcome.Ok? ==>
                !loading &&
                filesData == old(filesData) + [FolderRow(outcome.value.id, NewFolderName, outcome.value.countitem,
                                                         outcome.value.createdAt)]
      ensures editingId == old(editingId)
    {
      if user.None? {
        return;
      }
      loading := true;
      match outcome {
        case Err =>
        case Ok(stamp) =>
          filesData := filesData + [FolderRow(stamp.id, NewFolderName, stamp.countitem, stamp.createdAt)];
      }
      loading := false;
    }

    /** `handleChange`: the folder with the id takes the typed name at once. */
    method HandleChange(id: string, value: string)
      modifies this
      ensures filesData == Renamed(old(filesData), id, value)
      ensures loading == old(loading) && editingId == old(editingId)
    {
      filesData := Renamed(filesData, id, value);
    }

    /** `deleteFile`: on success the folders with the id are dropped; an error keeps the list. */
    method DeleteFile(id: string, failed: bool)
      modifies this
      ensures filesData == if failed then old(filesData) else WithoutFolder(old(filesData), id)
      ensures loading == old(loading) && editingId == old(editingId)
    {
      if !failed {
        filesData := WithoutFolder(filesData, id);
      }
    }

    method ClickEdit(id: string)
      modifies this
      ensures editingId == EditToggled(old(editingId), id)
      ensures filesData == old(filesData) && loading == old(loading)
    {
      editingId := if editingId == Some(id) then None else Some(id);
    }

    /** Clicking a folder's title starts editing it. */
    method ClickName(id: string)
      modifies this
      ensures editingId == Some(id)
      ensures filesData == old(filesData) && loading == old(loading)
    {
      editingId := Some(id);
    }

    /** Leaving the field, or pressing Enter in it, stops editing; other keys change nothing. */
    method FieldKey(key: Option<string>)
      modifies this
      ensures key.None? || key == Some("Enter") ==> editingId.None?
      ensures key.Some? && key != Some("Enter") ==> editingId == old(editingId)
      ensures filesData == old(filesData) && loading == old(loading)
    {
      if key.None? || key == Some("Enter") {
        editingId := None;
      }
    }
  }
}
