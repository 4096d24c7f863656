/**
 * The files page of one gallery folder: the image viewer's circular
 * navigation and key handling, the upload loop with its progress counter,
 * and the two fetches. Backend results are inputs; `stored(i)` says whether
 * the storage upload and the row insert for the i-th dropped file both
 * succeeded.
 */
module GalleryViewer {
  import opened Wrappers

  datatype Folder = Folder(id: string, userId: string, name: string, createdAt: string)

  datatype GalleryFile = GalleryFile(id: string, folderId: string, userId: string, filePath: string, createdAt: string)

  /** A file handed to `uploadFiles`: its name and MIME type. */
  datatype Dropped = Dropped(name: string, mimeType: string)

  // ---------------------------------------------------------------------------
  // The viewer

  datatype ViewerState = ViewerState(files: seq<GalleryFile>, selectedImage: Option<GalleryFile>, currentImageIndex: nat)

  /** `nextImage`: the following image, the last one wrapping to the first. */
  function NextShown(s: ViewerState): (r: ViewerState)
    ensures |s.files| == 0 ==> r == s
    ensures |s.files| > 0 ==>
              (r.currentImageIndex < |s.files| && r.selectedImage == Some(s.files[r.currentImageIndex]) && r.files == s.files)
  {
    if |s.files| == 0 then s
    else
      var next := (s.currentImageIndex + 1) % |s.files|;
      s.(selectedImage := Some(s.files[next]), currentImageIndex := next)
  }

  /** `prevImage`: the preceding image, the first one wrapping to the last. */
  function PrevShown(s: ViewerState): (r: ViewerState)
    ensures |s.files| == 0 ==> r == s
    ensures |s.files| > 0 ==>
              (r.currentImageIndex < |s.files| && r.selectedImage == Some(s.files[r.currentImageIndex]) && r.files == s.files)
  {
    if |s.files| == 0 then s
    else
      // The dividend is never negative, so JavaScript's `%` agrees with Dafny's.
      var prev := (s.currentImageIndex - 1 + |s.files|) % |s.files|;
      s.(selectedImage := Some(s.files[prev]), currentImageIndex := prev)
  }

  /** The viewer shows the image at its index. */
  predicate Showing(s: ViewerState)
  {
    s.currentImageIndex < |s.files| && s.selectedImage == Some(s.files[s.currentImageIndex])
  }

  /** Back after forward, and forward after back, return to the image on show. */
  lemma NextPrevInverse(s: ViewerState)
    requires Showing(s)
    ensures PrevShown(NextShown(s)) == s
    ensures NextShown(PrevShown(s)) == s
  {
    var n := |s.files|;
    var i := s.currentImageIndex;
    if i + 1 < n {
      ModSmall(i + 1, n);
      ModUnique(i + n, n, 1, i);
    } else {
      ModUnique(n, n, 1, 0);
      ModSmall(n - 1, n);
    }
    if i == 0 {
      ModSmall(n - 1, n);
      ModUnique(n, n, 1, 0);
    } else {
      ModUnique(i - 1 + n, n, 1, i - 1);
      ModSmall(i, n);
    }
  }

  function NextTimes(s: ViewerState, k: nat): ViewerState
  {
    if k == 0 then s else NextShown(NextTimes(s, k - 1))
  }

  /** After `k` steps forward the index has moved `k` places round the list. */
  lemma {:induction false} NextTimesIndex(s: ViewerState, k: nat)
    requires s.currentImageIndex < |s.files|
    ensures NextTimes(s, k).files == s.files
    ensures NextTimes(s, k).currentImageIndex == (s.currentImageIndex + k) % |s.files|
  {
    var n := |s.files|;
    if k == 0 {
      ModSmall(s.currentImageIndex, n);
    } else {
      var prev := NextTimes(s, k - 1);
      NextTimesIndex(s, k - 1);
      assert NextTimes(s, k) == NextShown(prev);
      var x := s.currentImageIndex + k - 1;
      assert prev.currentImageIndex == x % n;
      ModStep(x, n);
      assert NextShown(prev).currentImageIndex == (x % n + 1) % n;
    }
  }

  /** One step round a cycle of `n` places. */
  lemma ModStep(x: nat, n: nat)
    requires n > 0
    ensures (x + 1) % n == (x % n + 1) % n
  {
    var q, j := x / n, x % n;
    assert x == q * n + j;
    if j + 1 < n {
      ModSmall(j + 1, n);
      ModUnique(x + 1, n, q, j + 1);
    } else {
      ModUnique(n, n, 1, 0);
      assert x + 1 == (q + 1) * n + 0;
      ModUnique(x + 1, n, q + 1, 0);
    }
  }

  /** `n` steps forward through `n` images come back to the image on show. */
  lemma FullCircle(s: ViewerState)
    requires Showing(s)
    ensures NextTimes(s, |s.files|) == s
  {
    var n := |s.files|;
    var r := NextTimes(s, n);
    NextTimesIndex(s, n);
    ModUnique(s.currentImageIndex + n, n, 1, s.currentImageIndex);
    assert r == NextShown(NextTimes(s, n - 1));
    assert r.currentImageIndex == s.currentImageIndex && r.files == s.files;
    assert r.selectedImage == Some(s.files[s.currentImageIndex]);
  }

  function ViewerOpened(s: ViewerState, file: GalleryFile, index: nat): ViewerState
  {
    s.(selectedImage := Some(file), currentImageIndex := index)
  }

  /** `closeImageViewer`: nothing selected, index back to 0. */
  function ViewerClosed(s: ViewerState): (r: ViewerState)
    ensures r.selectedImage.None? && r.currentImageIndex == 0 && r.files == s.files
  {
    s.(selectedImage := None, currentImageIndex := 0)
  }

  /** The keys the viewer listens to. */
  function KeyPressed(s: ViewerState, key: string): ViewerState
  {
    if s.selectedImage.None? then s
    else if key == "ArrowRight" then NextShown(s)
    else if key == "ArrowLeft" then PrevShown(s)
    else if key == "Escape" then ViewerClosed(s)
    else s
  }

  /** Keys act only while an image is selected. */
  lemma KeysNeedSelection(s: ViewerState, key: string)
    ensures s.selectedImage.None? ==> KeyPressed(s, key) == s
    ensures s.selectedImage.Some? && key == "Escape" ==> KeyPressed(s, key) == ViewerClosed(s)
    ensures s.selectedImage.Some? && key != "ArrowRight" && key != "ArrowLeft" && key != "Escape" ==> KeyPressed(s, key) == s
  {
  }

  // ---------------------------------------------------------------------------
  // Upload progress

  /** `Math.round(count / total * 100)`, the division taken exactly. */
  function Progress(count: nat, total: nat): (p: nat)
    requires total > 0
  {
    (200 * count + total) / (2 * total)
  }

  /** Progress stays within 0..100 while the count does not pass the total, reaches 100 at the total, and never falls. */
  lemma ProgressBounds(count: nat, more: nat, total: nat)
    requires total > 0 && count + more <= total
    ensures Progress(count, total) <= Progress(count + more, total) <= 100
    ensures Progress(total, total) == 100
    ensures Progress(0, total) == 0
  {
    ModUnique(200 * total + total, 2 * total, 100, total);
    ModUnique(total, 2 * total, 0, total);
    DivMonotone(200 * count + total, 200 * (count + more) + total, 2 * total);
    DivMonotone(200 * (count + more) + total, 200 * total + total, 2 * total);
  }

  // Division facts for a divisor that is not a constant.

  lemma {:induction false} MulAtLeast(a: int, n: int)
    requires a >= 1 && n > 0
    ensures a * n >= n
    decreases a
  {
    if a > 1 {
      MulAtLeast(a - 1, n);
      assert a * n == (a - 1) * n + n;
    }
  }

  /** Quotient and remainder are the only pair that rebuilds the dividend. */
  lemma ModUnique(x: int, n: int, q: int, r: int)
    requires 0 < n && 0 <= r < n && x == q * n + r
    ensures x % n == r && x / n == q
  {
    var q2, r2 := x / n, x % n;
    assert (q - q2) * n == r2 - r;
    if q > q2 {
      MulAtLeast(q - q2, n);
      assert false;
    } else if q < q2 {
      assert (q2 - q) * n == r - r2;
      MulAtLeast(q2 - q, n);
      assert false;
    }
  }

  lemma ModSmall(x: int, n: int)
    requires 0 <= x < n
    ensures x % n == x
  {
  }

  lemma DivMonotone(a: nat, b: nat, d: nat)
    requires a <= b && d > 0
    ensures a / d <= b / d
  {
    var qa, qb := a / d, b / d;
    if qa > qb {
      assert (qa - qb) * d == qa * d - qb * d;
      MulAtLeast(qa - qb, d);
      assert false;
    }
  }

  predicate IsImage(mimeType: string)
  {
    |mimeType| >= 6 && mimeType[..6] == "image/"
  }

  /** How many files the loop gets through: all of them, or up to the first image whose upload fails. */
  function Processed(fileList: seq<Dropped>, stored: nat -> bool, from: nat): (k: nat)
    requires from <= |fileList|
    ensures from <= k <= |fileList|
    ensures forall i :: from <= i < k ==> !IsImage(fileList[i].mimeType) || stored(i)
    ensures k < |fileList| ==> IsImage(fileList[k].mimeType) && !stored(k)
    decreases |fileList| - from
  {
    if from == |fileList| then from
    else if IsImage(fileList[from].mimeType) && !stored(from) then from
    else Processed(fileList, stored, from + 1)
  }

  /** The positions the loop uploads, in order: the images among the first `k` files. */
  function ImagesBefore(fileList: seq<Dropped>, k: nat): (r: seq<nat>)
    requires k <= |fileList|
    ensures forall j :: 0 <= j < |r| ==> r[j] < k && IsImage(fileList[r[j]].mimeType)
    ensures forall i :: 0 <= i < k && IsImage(fileList[i].mimeType) ==> i in r
  {
    if k == 0 then []
    else ImagesBefore(fileList, k - 1) + (if IsImage(fileList[k - 1].mimeType) then [k - 1] else [])
  }

  // ---------------------------------------------------------------------------
  // The page

  class FilesManager {
    var folder: Option<Folder>
    var files: seq<GalleryFile>
    var uploading: bool
    var selectedImage: Option<GalleryFile>
    var currentImageIndex: nat
    var uploadProgress: nat

    function Viewer(): ViewerState
      reads this
    {
      ViewerState(files, selectedImage, currentImageIndex)
    }

    constructor()
      ensures folder.None? && files == [] && !uploading && Viewer() == ViewerState([], None, 0) && uploadProgress == 0
    {
      folder, files, uploading := None, [], false;
      selectedImage, currentImageIndex, uploadProgress := None, 0, 0;
    }

    method NextImage()
      modifies this
      ensures Viewer() == NextShown(old(Viewer()))
      ensures folder == old(folder) && uploading == old(uploading) && uploadProgress == old(uploadProgress)
    {
      if |files| == 0 {
        return;
      }
      var next := (currentImageIndex + 1) % |files|;
      selectedImage := Some(files[next]);
      currentImageIndex := next;
    }

    method PrevImage()
      modifies this
      ensures Viewer() == PrevShown(old(Viewer()))
      ensures folder == old(folder) && uploading == old(uploading) && uploadProgress == old(uploadProgress)
    {
      if |files| == 0 {
        return;
      }
      var prev := (currentImageIndex - 1 + |files|) % |files|;
      selectedImage := Some(files[prev]);
      currentImageIndex := prev;
    }

    method OpenImageViewer(file: GalleryFile, index: nat)
      modifies this
      ensures Viewer() == ViewerOpened(old(Viewer()), file, index)
      ensures folder == old(folder) && uploading == old(uploading) && uploadProgress == old(uploadProgress)
    {
      selectedImage := Some(file);
      currentImageIndex := index;
    }

    method CloseImageViewer()
      modifies this
      ensures Viewer() == ViewerClosed(old(Viewer()))
      ensures folder == old(folder) && uploading == old(uploading) && uploadProgress == old(uploadProgress)
    {
      selectedImage := None;
      currentImageIndex := 0;
    }

    method HandleKeyPress(key: string)
      modifies this
      ensures Viewer() == KeyPressed(old(Viewer()), key)
      ensures folder == old(folder) && uploading == old(uploading) && uploadProgress == old(uploadProgress)
    {
      if selectedImage.None? {
        return;
      }
      if key == "ArrowRight" {
        NextImage();
      } else if key == "ArrowLeft" {
        PrevImage();
      } else if key == "Escape" {
        CloseImageViewer();
      }
    }

    /** `fetchFiles`: no folder id changes nothing; an error empties the list; otherwise the rows, [] for null. */
    method FetchFiles(folderId: string, outcome: Response<Option<seq<GalleryFile>>>)
      modifies this
      ensures folderId == "" ==> files == old(files)
      ensures folderId != "" && outcome.Err? ==> files == []
      ensures folderId != "" && outcome.Ok? ==> files == outcome.value.GetOr([])
      ensures folder == old(folder) && selectedImage == old(selectedImage) && currentImageIndex == old(currentImageIndex)
      ensures uploading == old(uploading) && uploadProgress == old(uploadProgress)
    {
      if folderId == "" {
        return;
      }
      match outcome {
        case Err => files := [];
        case Ok(data) => files := data.GetOr([]);
      }
    }

    /** `fetchFolder`: no folder id or an error changes nothing; otherwise the folder row. */
    method FetchFolder(folderId: string, outcome: Response<Option<Folder>>)
      modifies this
      ensures folderId == "" || outcome.Err? ==> folder == old(folder)
      ensures folderId != "" && outcome.Ok? ==> folder == outcome.value
      ensures files == old(files) && selectedImage == old(selectedImage) && currentImageIndex == old(currentImageIndex)
      ensures uploading == old(uploading) && uploadProgress == old(uploadProgress)
    {
      if folderId == "" {
        return;
      }
      match outcome {
        case Err =>
        case Ok(data) => folder := data;
      }
    }

    /**
     * `uploadFiles`. `progress` lists the values the progress bar is set to
     * inside the loop, `uploaded` the positions sent to storage, and
     * `completed` whether the loop got through every file (the page then
     * refetches its files and folder). Whatever happens, `finally` leaves the
     * page not uploading and the progress at 0.
     */
    method UploadFiles(fileList: seq<Dropped>, stored: nat -> bool)
      returns (progress: seq<nat>, uploaded: seq<nat>, completed: bool)
      modifies this
      ensures folder.None? || |fileList| == 0 ==>
                (progress == [] && uploaded == [] && !completed &&
                 uploading == old(uploading) && uploadProgress == old(uploadProgress))
      ensures folder.Some? && |fileList| > 0 ==>
                var k := Processed(fileList, stored, 0);
                |progress| == k &&
                (forall i :: 0 <= i < k ==> progress[i] == Progress(i + 1, |fileList|)) &&
                uploaded == ImagesBefore(fileList, k) &&
                completed == (k == |fileList|) &&
                !uploading && uploadProgress == 0
      ensures folder == old(folder) && Viewer() == old(Viewer())
    {
      progress, uploaded, completed := [], [], false;
      if folder.None? || |fileList| == 0 {
        return;
      }
      uploading := true;
      uploadProgress := 0;
      var failed;
      progress, uploaded, failed := UploadLoop(fileList, stored);
      completed := !failed;
      uploading := false;
      uploadProgress := 0;
    }
  }

  /**
   * The `for...of` loop of `uploadFiles`: every file advances the count and
   * sets the progress; an image is first uploaded, and a failed upload throws
   * out of the loop.
   */
  method UploadLoop(fileList: seq<Dropped>, stored: nat -> bool)
    returns (progress: seq<nat>, uploaded: seq<nat>, failed: bool)
    requires |fileList| > 0
    ensures var k := Processed(fileList, stored, 0);
            |progress| == k &&
            (forall i :: 0 <= i < k ==> progress[i] == Progress(i + 1, |fileList|)) &&
            uploaded == ImagesBefore(fileList, k) &&
            failed == (k < |fileList|)
  {
    progress, uploaded := [], [];
    ghost var k := Processed(fileList, stored, 0);
    var totalFiles := |fileList|;
    var uploadedCount := 0;
    failed := false;
    while uploadedCount < totalFiles && !failed
      invariant 0 <= uploadedCount <= totalFiles
      invariant uploadedCount <= k
      invariant failed ==> uploadedCount == k && uploadedCount < totalFiles
      invariant |progress| == uploadedCount
      invariant forall i :: 0 <= i < uploadedCount ==> progress[i] == Progress(i + 1, totalFiles)
      invariant uploaded == ImagesBefore(fileList, uploadedCount)
      decreases totalFiles - uploadedCount, !failed
    {
      var file := fileList[uploadedCount];
      if !IsImage(file.mimeType) {
        assert ImagesBefore(fileList, uploadedCount + 1) == uploaded;
        uploadedCount := uploadedCount + 1;
        progress := progress + [Progress(uploadedCount, totalFiles)];
        continue;
      }
      if !stored(uploadedCount) {
        failed := true;
      } else {
        assert ImagesBefore(fileList, uploadedCount + 1) == uploaded + [uploadedCount];
        uploaded := uploaded + [uploadedCount];
        uploadedCount := uploadedCount + 1;
        progress := progress + [Progress(uploadedCount, totalFiles)];
      }
    }
  }

  /** The progress values of an upload rise, never pass 100, and end at 100 when every file went through. */
  lemma UploadProgressShape(progress: seq<nat>, total: nat, k: nat)
    requires 0 < total && k <= total && |progress| == k
    requires forall i :: 0 <= i < k ==> progress[i] == Progress(i + 1, total)
    ensures forall i, j :: 0 <= i <= j < k ==> progress[i] <= progress[j] <= 100
    ensures k == total ==> progress[k - 1] == 100
  {
    forall i, j | 0 <= i <= j < k ensures progress[i] <= progress[j] <= 100 {
      ProgressBounds(i + 1, j - i, total);
    }
    if k == total {
      ProgressBounds(total, 0, total);
    }
  }
}
