/** The gallery component's state and its event handlers. */
module Gallery {
  import opened Wrappers
  import opened Records
  import opened Subsequences
  import opened Batch
  import opened Search
  import opened Text

  /** The one message shown when a batch fails, whatever the cause. */
  const BatchError := "Error processing one or more images. Please try again."

  class Gallery {
    var images: seq<ImageRecord>
    var filteredImages: seq<ImageRecord>
    var searchQuery: string
    var dragActive: bool
    var isLoading: bool
    var error: Option<string>

    /** The view shows some of the gallery's records, in gallery order. */
    ghost predicate Valid()
      reads this
    {
      IsSubsequence(filteredImages, images)
    }

    /** The state after one batch of `files`, started from `prevImages` and
        `prevFiltered`: all records appended and shown, or nothing changed
        and the error set. */
    ghost predicate BatchDone(prevImages: seq<ImageRecord>, prevFiltered: seq<ImageRecord>,
                              files: seq<File>, analyze: Analyzer)
      reads this
    {
      !isLoading &&
      match NewImages(files, analyze)
      case Some(added) =>
        images == prevImages + added && filteredImages == images && error == None
      case None =>
        images == prevImages && filteredImages == prevFiltered && error == Some(BatchError)
    }

    constructor ()
      ensures Valid()
      ensures images == [] && filteredImages == [] && searchQuery == ""
      ensures !dragActive && !isLoading && error == None
    {
      images, filteredImages, searchQuery := [], [], "";
      dragActive, isLoading, error := false, false, None;
    }

    /** `handleDrag`: entering or hovering raises the drag flag, leaving lowers
        it, any other event leaves it as it was. */
    method HandleDrag(eventType: string)
      requires Valid()
      modifies this`dragActive
      ensures Valid()
      ensures eventType == "dragenter" || eventType == "dragover" ==> dragActive
      ensures eventType == "dragleave" ==> !dragActive
      ensures eventType !in {"dragenter", "dragover", "dragleave"} ==> dragActive == old(dragActive)
    {
      if eventType == "dragenter" || eventType == "dragover" {
        dragActive := true;
      } else if eventType == "dragleave" {
        dragActive := false;
      }
    }

    /** The synchronous start of `handleFiles`: loading shown, old error cleared. */
    method BeginBatch()
      requires Valid()
      modifies this`isLoading, this`error
      ensures Valid()
      ensures isLoading && error == None
    {
      isLoading := true;
      error := None;
    }

    /** The end of `handleFiles`, once every analysis has settled: the new
        records are appended and the view reset to the whole gallery, or, when
        any analysis failed, the gallery is left as it was and the error set;
        loading is cleared either way. */
    method FinishBatch(added: Option<seq<ImageRecord>>)
      requires Valid()
      modifies this`images, this`filteredImages, this`error, this`isLoading
      ensures Valid() && !isLoading
      ensures added.Some? ==>
                images == old(images) + added.value && filteredImages == images && error == old(error)
      ensures added.None? ==>
                images == old(images) && filteredImages == old(filteredImages) && error == Some(BatchError)
    {
      match added {
        case Some(records) =>
          var updated := images + records;
          filteredImages := updated;
          images := updated;
          SubsequenceReflexive(images);
        case None =>
          error := Some(BatchError);
      }
      isLoading := false;
    }

    /** `handleFiles`: one batch, all or nothing. */
    method HandleFiles(files: seq<File>, analyze: Analyzer)
      requires Valid()
      modifies this`images, this`filteredImages, this`error, this`isLoading
      ensures Valid()
      ensures BatchDone(old(images), old(filteredImages), files, analyze)
    {
      BeginBatch();
      FinishBatch(NewImages(files, analyze));
    }

    /** `handleDrop`: lowers the drag flag, then runs a batch only when files were dropped. */
    method HandleDrop(files: seq<File>, analyze: Analyzer)
      requires Valid()
      modifies this`images, this`filteredImages, this`error, this`isLoading, this`dragActive
      ensures Valid() && !dragActive
      ensures |files| == 0 ==>
                images == old(images) && filteredImages == old(filteredImages) &&
                error == old(error) && isLoading == old(isLoading)
      ensures |files| > 0 ==> BatchDone(old(images), old(filteredImages), files, analyze)
    {
      dragActive := false;
      if |files| > 0 {
        HandleFiles(files, analyze);
      }
    }

    /** `handleChange`: runs a batch only when the picker returned files. */
    method HandleChange(files: seq<File>, analyze: Analyzer)
      requires Valid()
      modifies this`images, this`filteredImages, this`error, this`isLoading
      ensures Valid()
      ensures |files| == 0 ==>
                images == old(images) && filteredImages == old(filteredImages) &&
                error == old(error) && isLoading == old(isLoading)
      ensures |files| > 0 ==> BatchDone(old(images), old(filteredImages), files, analyze)
    {
      if |files| > 0 {
        HandleFiles(files, analyze);
      }
    }

    /** Typing in the search box changes the query, not the view. */
    method SetSearchQuery(query: string)
      requires Valid()
      modifies this`searchQuery
      ensures Valid()
      ensures searchQuery == query
    {
      searchQuery := query;
    }

    /** `searchImages`: the view becomes the records matching the current query. */
    method SearchImages()
      requires Valid()
      modifies this`filteredImages
      ensures Valid()
      ensures filteredImages == Filter(images, searchQuery)
      ensures |filteredImages| <= |images|
      ensures forall x :: x in filteredImages ==> x in images
    {
      filteredImages := Filter(images, searchQuery);
      SubsequenceLength(filteredImages, images);
      forall x | x in filteredImages
        ensures x in images
      {
        SubsequenceMembers(filteredImages, images, x);
      }
    }

    /** `showAllImages`: the view becomes the whole gallery and the query is cleared. */
    method ShowAllImages()
      requires Valid()
      modifies this`filteredImages, this`searchQuery
      ensures Valid()
      ensures filteredImages == images && searchQuery == ""
    {
      filteredImages := images;
      searchQuery := "";
      SubsequenceReflexive(images);
    }
  }

  /** Two images uploaded in one batch, then searched and shown again. */
  method UploadSearchShowAll() returns (uploaded: seq<string>, searched: seq<string>, shown: seq<string>)
    ensures uploaded == ["Cat", "Dog"]
    ensures searched == ["Cat"]
    ensures shown == ["Cat", "Dog"]
  {
    var cat := ImageRecord("blob:cat", "Cat", "a cat", "png", []);
    var dog := ImageRecord("blob:dog", "Dog", "a dog", "png", []);
    var catFile := File(1, "cat.png", "image/png");
    var dogFile := File(2, "dog.jpg", "image/jpeg");
    var analyze: Analyzer := f => if f == catFile then Analysed(cat) else Analysed(dog);
    var g := new Gallery();
    BothImagesAdded(catFile, dogFile, analyze);
    g.HandleDrop([catFile, dogFile], analyze);
    assert g.images == [cat, dog];
    uploaded := [g.images[0].title, g.images[1].title];
    g.SetSearchQuery("ca");
    g.SearchImages();
    CatFoundDogNot(cat, dog);
    assert g.filteredImages == [cat];
    searched := [g.filteredImages[0].title];
    g.ShowAllImages();
    assert g.filteredImages == [cat, dog];
    shown := [g.filteredImages[0].title, g.filteredImages[1].title];
  }

  lemma BothImagesAdded(catFile: File, dogFile: File, analyze: Analyzer)
    requires catFile.mediaType == "image/png" && dogFile.mediaType == "image/jpeg"
    requires forall f :: analyze(f).Analysed?
    ensures NewImages([catFile, dogFile], analyze) ==
              Some([analyze(catFile).record, analyze(dogFile).record])
  {
    assert IsImageFile(catFile) by { assert "image/png"[..6] == "image/"; }
    assert IsImageFile(dogFile) by { assert "image/jpeg"[..6] == "image/"; }
    ImageFilesOfImages([catFile, dogFile]);
    assert NewImages([catFile, dogFile], analyze).Some?;
    NewImagesRecords([catFile, dogFile], analyze);
    var added := NewImages([catFile, dogFile], analyze).value;
    assert |added| == 2;
    assert added[0] == analyze(catFile).record && added[1] == analyze(dogFile).record;
    assert added == [analyze(catFile).record, analyze(dogFile).record];
  }

  lemma CatFoundDogNot(cat: ImageRecord, dog: ImageRecord)
    requires cat.title == "Cat" && cat.keywords == []
    requires dog.title == "Dog" && dog.keywords == []
    ensures Filter([cat, dog], "ca") == [cat]
  {
    assert Lower("ca") == "ca";
    assert Lower("Cat") == "cat";
    assert Lower("Dog") == "dog";
    assert Includes("cat", "ca") by { assert "cat"[..2] == "ca"; }
    assert !Includes("dog", "ca") by {
      assert "dog"[..2][0] != "ca"[0];
      assert "dog"[1..] == "og" && "og"[..2][0] != "ca"[0];
      assert "og"[1..] == "g";
    }
    assert [cat, dog][1..] == [dog];
    assert [dog][1..] == [];
  }
}
