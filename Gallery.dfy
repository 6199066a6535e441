/** The image gallery (app/composables/useImageGallery.ts): the upload size
    filter, the list of loaded images with an id-based selection, the
    per-id field updates, the bulk clearing of results, and the name each
    image gets inside the downloaded ZIP archive. */
module ImageGallery {
  import opened Wrappers
  import opened Text

  /** A file offered for upload: its name, MIME type and size in bytes. */
  datatype File = File(name: string, mimeType: string, size: nat)

  /** A gallery entry; the data URLs are None where the source holds null. */
  datatype GalleryImage = GalleryImage(
    id: string,
    fileName: string,
    originalSrc: string,
    originalFileSize: nat,
    ditheredDataUrl: Option<string>,
    resizedOriginalSrc: Option<string>,
    isProcessing: bool)

  /** 2.5 * 1024 * 1024 bytes. */
  const MaxFileSize: nat := 2621440

  // ---------------------------------------------------------------------------
  // The upload filter

  predicate IsImage(f: File) {
    StartsWith(f.mimeType, "image/")
  }

  predicate TooLarge(f: File) {
    f.size > MaxFileSize
  }

  /** Array.from(files).filter(f => f.type.startsWith('image/')): the
      image files and only those. */
  function ImageFiles(files: seq<File>): (r: seq<File>)
    ensures |r| <= |files|
    ensures forall f :: f in r <==> f in files && IsImage(f)
  {
    if |files| == 0 then []
    else
      var init := files[..|files| - 1];
      assert files == init + [files[|files| - 1]];
      ImageFiles(init) + (if IsImage(files[|files| - 1]) then [files[|files| - 1]] else [])
  }

  /** The image files over the size limit, in input order: no more files
      than were offered, each an image over the limit. */
  function Oversized(files: seq<File>): (r: seq<File>)
    ensures |r| <= |files|
    ensures forall k :: 0 <= k < |r| ==> IsImage(r[k]) && TooLarge(r[k])
  {
    if |files| == 0 then []
    else
      var init := files[..|files| - 1];
      var f := files[|files| - 1];
      assert files == init + [f];
      Oversized(init) + (if IsImage(f) && TooLarge(f) then [f] else [])
  }

  /** The image files within the size limit, in input order: no more files
      than were offered, each an image within the limit. */
  function Accepted(files: seq<File>): (r: seq<File>)
    ensures |r| <= |files|
    ensures forall k :: 0 <= k < |r| ==> IsImage(r[k]) && !TooLarge(r[k])
  {
    if |files| == 0 then []
    else
      var init := files[..|files| - 1];
      var f := files[|files| - 1];
      assert files == init + [f];
      Accepted(init) + (if IsImage(f) && !TooLarge(f) then [f] else [])
  }

  function Names(files: seq<File>): (names: seq<string>)
    ensures |names| == |files|
    ensures forall i :: 0 <= i < |files| ==> names[i] == files[i].name
  {
    seq(|files|, i requires 0 <= i < |files| => files[i].name)
  }

  /** A file is rejected exactly when it is an image over the limit. */
  lemma {:induction false} OversizedExactly(files: seq<File>, f: File)
    ensures f in Oversized(files) <==> f in files && IsImage(f) && TooLarge(f)
  {
    if |files| > 0 {
      var init := files[..|files| - 1];
      OversizedExactly(init, f);
      assert files == init + [files[|files| - 1]];
    }
  }

  /** A file is read exactly when it is an image within the limit; so a
      file that is not an image is neither rejected nor read. */
  lemma {:induction false} AcceptedExactly(files: seq<File>, f: File)
    ensures f in Accepted(files) <==> f in files && IsImage(f) && !TooLarge(f)
  {
    if |files| > 0 {
      var init := files[..|files| - 1];
      AcceptedExactly(init, f);
      assert files == init + [files[|files| - 1]];
    }
  }

  /** The rejected list keeps input order: the rejections of a batch are
      those of its first part followed by those of its second. */
  lemma {:induction false} OversizedKeepsOrder(a: seq<File>, b: seq<File>)
    ensures Oversized(a + b) == Oversized(a) + Oversized(b)
  {
    if |b| > 0 {
      var init := b[..|b| - 1];
      assert (a + b)[..|a + b| - 1] == a + init;
      OversizedKeepsOrder(a, init);
    } else {
      assert a + b == a;
    }
  }

  /** Filtering out the non-images first changes neither list. */
  lemma {:induction false} FilterFirst(files: seq<File>)
    ensures Oversized(ImageFiles(files)) == Oversized(files)
    ensures Accepted(ImageFiles(files)) == Accepted(files)
  {
    if |files| > 0 {
      var init := files[..|files| - 1];
      var f := files[|files| - 1];
      FilterFirst(init);
      if IsImage(f) {
        assert ImageFiles(files) == ImageFiles(init) + [f];
        Snoc(ImageFiles(init), f);
      } else {
        assert ImageFiles(files) == ImageFiles(init);
      }
    }
  }

  lemma Snoc(a: seq<File>, f: File)
    ensures Oversized(a + [f]) == Oversized(a) + (if IsImage(f) && TooLarge(f) then [f] else [])
    ensures Accepted(a + [f]) == Accepted(a) + (if IsImage(f) && !TooLarge(f) then [f] else [])
  {
    assert (a + [f])[..|a|] == a;
  }

  /** One more image file adds its name to the rejections or itself to the
      reads. */
  lemma {:induction false} AddImagesStep(a: seq<File>, f: File)
    requires IsImage(f)
    ensures Names(Oversized(a + [f])) == Names(Oversized(a)) + (if TooLarge(f) then [f.name] else [])
    ensures Accepted(a + [f]) == Accepted(a) + (if TooLarge(f) then [] else [f])
  {
    Snoc(a, f);
    if TooLarge(f) {
      assert Names(Oversized(a) + [f]) == Names(Oversized(a)) + [f.name];
    } else {
      assert Oversized(a + [f]) == Oversized(a) + [];
    }
  }

  lemma {:induction false} AcceptedKeepsOrder(a: seq<File>, b: seq<File>)
    ensures Accepted(a + b) == Accepted(a) + Accepted(b)
  {
    if |b| > 0 {
      var init := b[..|b| - 1];
      assert (a + b)[..|a + b| - 1] == a + init;
      AcceptedKeepsOrder(a, init);
    } else {
      assert a + b == a;
    }
  }

  /** addImages: the names of the image files over the limit, in order, and
      the image files whose FileReader read is started, in order. Each
      started read later completes with OnLoad. */
  method AddImages(files: seq<File>) returns (rejected: seq<string>, started: seq<File>)
    ensures rejected == Names(Oversized(files))
    ensures started == Accepted(files)
  {
    var fileArray := ImageFiles(files);
    rejected, started := [], [];
    for i := 0 to |fileArray|
      invariant rejected == Names(Oversized(fileArray[..i]))
      invariant started == Accepted(fileArray[..i])
    {
      var file := fileArray[i];
      assert fileArray[..i + 1] == fileArray[..i] + [file];
      assert file in fileArray;
      AddImagesStep(fileArray[..i], file);
      if TooLarge(file) {
        rejected := rejected + [file.name];
        continue;
      }
      started := started + [file];
    }
    assert fileArray[..|fileArray|] == fileArray;
    FilterFirst(files);
  }

  // ---------------------------------------------------------------------------
  // Looking images up

  /** images.findIndex(img => img.id === id) */
  function FindIndex(images: seq<GalleryImage>, id: string): (r: int)
    ensures -1 <= r < |images|
    ensures r >= 0 ==> images[r].id == id && forall j :: 0 <= j < r ==> images[j].id != id
    ensures r == -1 <==> forall j :: 0 <= j < |images| ==> images[j].id != id
  {
    if |images| == 0 then -1
    else if images[0].id == id then 0
    else
      var r := FindIndex(images[1..], id);
      if r == -1 then -1 else r + 1
  }

  /** The number of images with a dithered result. */
  function CountProcessed(images: seq<GalleryImage>): (n: nat)
    ensures n <= |images|
  {
    if |images| == 0 then 0
    else CountProcessed(images[..|images| - 1]) + (if images[|images| - 1].ditheredDataUrl.Some? then 1 else 0)
  }

  /** Setting one image's dithered result counts it as processed if it was
      not already. */
  lemma {:induction false} CountAfterSet(images: seq<GalleryImage>, i: nat, url: string)
    requires i < |images|
    ensures CountProcessed(images[i := images[i].(ditheredDataUrl := Some(url))])
         == CountProcessed(images) + (if images[i].ditheredDataUrl.None? then 1 else 0)
  {
    var updated := images[i := images[i].(ditheredDataUrl := Some(url))];
    var n := |images|;
    if i < n - 1 {
      assert updated[..n - 1] == images[..n - 1][i := images[i].(ditheredDataUrl := Some(url))];
      CountAfterSet(images[..n - 1], i, url);
    } else {
      assert updated[..n - 1] == images[..n - 1];
    }
  }

  /** With every dithered result cleared nothing counts as processed. */
  lemma {:induction false} NoneProcessed(images: seq<GalleryImage>)
    requires forall j :: 0 <= j < |images| ==> images[j].ditheredDataUrl.None?
    ensures CountProcessed(images) == 0
  {
    if |images| > 0 {
      NoneProcessed(images[..|images| - 1]);
    }
  }

  // ---------------------------------------------------------------------------
  // The ZIP entry name

  /** The index of the last '.' in s, or -1 when there is none. */
  function LastDot(s: string): (r: int)
    ensures -1 <= r < |s|
    ensures r >= 0 ==> s[r] == '.' && forall k :: r < k < |s| ==> s[k] != '.'
    ensures r == -1 ==> forall k :: 0 <= k < |s| ==> s[k] != '.'
  {
    if |s| == 0 then -1
    else if s[|s| - 1] == '.' then |s| - 1
    else LastDot(s[..|s| - 1])
  }

  /** fileName.replace(/\.[^.]+$/, ''): a final dot followed by at least
      one character, none of them a dot, is removed with what follows it.
      The result is a prefix of the name; when it is shorter, the name goes
      on with a dot and at least one more character, and no dot after it. */
  function StripExtension(name: string): (base: string)
    ensures |base| <= |name| && base == name[..|base|]
    ensures |base| < |name| ==>
      && |base| + 1 < |name| && name[|base|] == '.'
      && forall k :: |base| < k < |name| ==> name[k] != '.'
  {
    var d := LastDot(name);
    if 0 <= d < |name| - 1 then name[..d] else name
  }

  /** `${baseName}-dithered.png`: the name with its extension removed,
      followed by "-dithered.png". */
  function ZipEntryName(fileName: string): (entry: string)
    ensures |entry| >= |"-dithered.png"|
    ensures var n := |entry| - |"-dithered.png"|;
      && entry[n..] == "-dithered.png" && n <= |fileName| && entry[..n] == fileName[..n]
  {
    var base := StripExtension(fileName);
    assert (base + "-dithered.png")[..|base|] == base;
    base + "-dithered.png"
  }

  /** A name with an extension loses exactly the extension and its dot. */
  lemma StripsExtension(base: string, ext: string)
    requires |ext| > 0 && forall k :: 0 <= k < |ext| ==> ext[k] != '.'
    ensures StripExtension(base + "." + ext) == base
    ensures ZipEntryName(base + "." + ext) == base + "-dithered.png"
  {
    var s := base + "." + ext;
    assert s[|base|] == '.';
    assert forall k :: |base| < k < |s| ==> s[k] == ext[k - |base| - 1];
    assert s[..|base|] == base;
  }

  /** A name without a dot, or ending in a dot, is kept whole. */
  lemma KeepsExtensionless(name: string)
    requires (forall k :: 0 <= k < |name| ==> name[k] != '.') || (|name| > 0 && name[|name| - 1] == '.')
    ensures StripExtension(name) == name
    ensures ZipEntryName(name) == name + "-dithered.png"
  {
  }

  // ---------------------------------------------------------------------------
  // The gallery state

  class Gallery {
    var images: seq<GalleryImage>
    var selectedId: Option<string>

    constructor()
      ensures images == [] && selectedId == None
    {
      images := [];
      selectedId := None;
    }

    /** selectedImage: the first image whose id is the selected id, or None. */
    function SelectedImage(): (img: Option<GalleryImage>)
      reads this
      ensures img.Some? <==> selectedId.Some? && FindIndex(images, selectedId.value) != -1
      ensures img.Some? ==> img.value in images && Some(img.value.id) == selectedId
      ensures img.Some? ==> img.value == images[FindIndex(images, selectedId.value)]
    {
      if selectedId.None? then None
      else
        var i := FindIndex(images, selectedId.value);
        if i == -1 then None else Some(images[i])
    }

    /** hasImages: false exactly for an empty gallery, where nothing is
        selected and nothing counts as processed. */
    function HasImages(): (b: bool)
      reads this
      ensures b <==> images != []
      ensures !b ==> SelectedImage() == None && ProcessedCount() == 0
    {
      |images| > 0
    }

    /** processedCount: never more than the number of images. */
    function ProcessedCount(): (n: nat)
      reads this
      ensures n <= |images|
    {
      CountProcessed(images)
    }

    /** The FileReader's onload for a started read: the new image goes at the
        end with no results and not processing, and is selected exactly
        when it is now the only image. */
    method OnLoad(file: File, id: string, dataUrl: string)
      modifies this
      ensures images == old(images) + [GalleryImage(id, file.name, dataUrl, file.size, None, None, false)]
      ensures selectedId == if |old(images)| == 0 then Some(id) else old(selectedId)
      ensures |images| == 1 ==> SelectedImage() == Some(images[0])
    {
      var newImage := GalleryImage(id, file.name, dataUrl, file.size, None, None, false);
      images := images + [newImage];
      if |images| == 1 {
        selectedId := Some(newImage.id);
      }
    }

    method SelectImage(id: string)
      modifies this
      ensures selectedId == Some(id) && images == old(images)
    {
      selectedId := Some(id);
    }

    /** removeImage: removes the first image with the id. When that image
        was selected, the selection moves to the image before it (to the new
        first image when it was first), or to None when none is left. */
    method RemoveImage(id: string)
      modifies this
      ensures var index := FindIndex(old(images), id);
        && (index == -1 ==> images == old(images) && selectedId == old(selectedId))
        && (index != -1 ==> images == old(images[..index] + images[index + 1..]))
        && (index != -1 && old(selectedId) == Some(id) ==>
              selectedId == if |images| > 0 then Some(images[if index > 0 then index - 1 else 0].id) else None)
        && (old(selectedId) != Some(id) ==> selectedId == old(selectedId))
      ensures old(selectedId) == Some(id) && FindIndex(old(images), id) != -1 ==>
        (SelectedImage().Some? <==> |images| > 0)
    {
      var index := FindIndex(images, id);
      if index != -1 {
        images := images[..index] + images[index + 1..];
        if selectedId == Some(id) {
          if |images| > 0 {
            var newIndex := if index - 1 > 0 then index - 1 else 0;
            selectedId := Some(images[newIndex].id);
            assert FindIndex(images, selectedId.value) != -1;
          } else {
            selectedId := None;
          }
        }
      }
    }

    method ClearAll()
      modifies this
      ensures images == [] && selectedId == None
      ensures !HasImages() && SelectedImage() == None && ProcessedCount() == 0
    {
      images := [];
      selectedId := None;
    }

    /** setDitheredResult: sets the result of the first image with the id;
        an unknown id changes nothing. */
    method SetDitheredResult(id: string, dataUrl: string)
      modifies this
      ensures var i := FindIndex(old(images), id);
        && (i == -1 ==> images == old(images))
        && (i != -1 ==> images == old(images)[i := old(images)[i].(ditheredDataUrl := Some(dataUrl))])
        && ProcessedCount() == old(ProcessedCount()) + (if i != -1 && old(images)[i].ditheredDataUrl.None? then 1 else 0)
      ensures selectedId == old(selectedId)
    {
      var i := FindIndex(images, id);
      if i != -1 {
        CountAfterSet(images, i, dataUrl);
        images := images[i := images[i].(ditheredDataUrl := Some(dataUrl))];
      }
    }

    /** setResizedOriginal: sets the resized source of the first image with
        the id; an unknown id changes nothing. */
    method SetResizedOriginal(id: string, dataUrl: Option<string>)
      modifies this
      ensures var i := FindIndex(old(images), id);
        && (i == -1 ==> images == old(images))
        && (i != -1 ==> images == old(images)[i := old(images)[i].(resizedOriginalSrc := dataUrl)])
      ensures selectedId == old(selectedId)
    {
      var i := FindIndex(images, id);
      if i != -1 {
        images := images[i := images[i].(resizedOriginalSrc := dataUrl)];
      }
    }

    /** setProcessing: sets the flag of the first image with the id; an
        unknown id changes nothing. */
    method SetProcessing(id: string, processing: bool)
      modifies this
      ensures var i := FindIndex(old(images), id);
        && (i == -1 ==> images == old(images))
        && (i != -1 ==> images == old(images)[i := old(images)[i].(isProcessing := processing)])
      ensures selectedId == old(selectedId)
    {
      var i := FindIndex(images, id);
      if i != -1 {
        images := images[i := images[i].(isProcessing := processing)];
      }
    }

    /** clearDitheredResults: every image loses its dithered result and its
        resized source and keeps everything else; afterwards nothing counts
        as processed. */
    method ClearDitheredResults()
      modifies this
      ensures |images| == |old(images)|
      ensures forall j :: 0 <= j < |images| ==>
        images[j] == old(images[j]).(ditheredDataUrl := None, resizedOriginalSrc := None)
      ensures selectedId == old(selectedId)
      ensures ProcessedCount() == 0
    {
      var i := 0;
      while i < |images|
        invariant 0 <= i <= |images| == |old(images)|
        invariant forall j :: 0 <= j < i ==>
          images[j] == old(images[j]).(ditheredDataUrl := None, resizedOriginalSrc := None)
        invariant forall j :: i <= j < |images| ==> images[j] == old(images[j])
        invariant selectedId == old(selectedId)
      {
        images := images[i := images[i].(ditheredDataUrl := None, resizedOriginalSrc := None)];
        i := i + 1;
      }
      NoneProcessed(images);
    }
  }
}
