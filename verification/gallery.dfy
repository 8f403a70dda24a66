/**
 * The gallery: the in-memory photo list, the entries shown on the page
 * (newest first), the shown count and "clear all" button, and the storage
 * item that holds the whole list.
 */
module Gallery {
  import opened PhotoList
  import opened Storage

  /** The gallery key is present and its text parses as a photo list. */
  predicate HoldsList(items: map<string, Stored>) {
    PhotosKey in items && items[PhotosKey].Serialized?
  }

  /** The list a load ends with: the stored list when there is one, else the current one. */
  function Restored(items: map<string, Stored>, current: seq<Photo>): seq<Photo> {
    if HoldsList(items) then items[PhotosKey].photos else current
  }

  class GalleryStore {
    var photos: seq<Photo>
    /** The entries on the page, first shown first; each remembers its id. */
    var display: seq<Photo>
    var countLabel: nat
    var clearVisible: bool
    const storage: LocalStorage

    /** The page shows exactly the list, newest first. */
    ghost predicate InSync()
      reads this
    {
      display == Reverse(photos)
    }

    /** The storage item holds exactly the in-memory list. */
    ghost predicate Durable()
      reads this, storage
    {
      PhotosKey in storage.items && storage.items[PhotosKey] == Serialized(photos)
    }

    /** The count shows the list length; "clear all" is visible exactly when the list is not empty. */
    ghost predicate CountShown()
      reads this
    {
      countLabel == |photos| && clearVisible == (|photos| > 0)
    }

    /**
     * The module state before the startup load: an empty list and an empty
     * page. The count and button start as the page markup has them.
     */
    constructor (storage: LocalStorage)
      ensures this.storage == storage
      ensures photos == [] && display == []
    {
      this.storage := storage;
      photos := [];
      display := [];
    }

    /** `updatePhotoCount`. */
    method UpdatePhotoCount()
      modifies this`countLabel, this`clearVisible
      ensures CountShown()
    {
      countLabel := |photos|;
      clearVisible := |photos| > 0;
    }

    /** `addPhotoToGallery`: shows the entry before all others and refreshes the count. */
    method AddPhotoToGallery(p: Photo)
      modifies this`display, this`countLabel, this`clearVisible
      ensures display == [p] + old(display)
      ensures CountShown()
    {
      display := [p] + display;
      UpdatePhotoCount();
    }

    /**
     * `savePhotosToStorage`: writes the whole list under the gallery key. A
     * quota failure is caught: the list in memory stays as it is and storage
     * keeps what it held. `persisted` is false exactly when the failure
     * alert is shown.
     */
    method SavePhotosToStorage(quotaExceeded: bool) returns (persisted: bool)
      modifies storage
      ensures persisted <==> !quotaExceeded
      ensures persisted ==> Durable()
      ensures persisted ==> storage.items == old(storage.items)[PhotosKey := Serialized(photos)]
      ensures !persisted ==> storage.items == old(storage.items)
    {
      persisted := storage.SetItem(PhotosKey, photos, quotaExceeded);
    }

    /**
     * `loadPhotosFromStorage`: when the gallery key holds a list, takes it and
     * shows each entry in turn (so newest first); when the key is absent or
     * its text does not parse, nothing changes.
     */
    method LoadPhotosFromStorage()
      modifies this`photos, this`display, this`countLabel, this`clearVisible
      ensures photos == Restored(storage.items, old(photos))
      ensures HoldsList(storage.items) ==> display == Reverse(photos) + old(display)
      ensures HoldsList(storage.items) && photos != [] ==> CountShown()
      ensures photos == [] ==> countLabel == old(countLabel) && clearVisible == old(clearVisible)
      ensures !HoldsList(storage.items) ==>
                display == old(display) && countLabel == old(countLabel) && clearVisible == old(clearVisible)
    {
      if PhotosKey in storage.items {
        match storage.items[PhotosKey] {
          case Unparsable =>
          case Serialized(loaded) =>
            photos := loaded;
            var i := 0;
            while i < |loaded|
              invariant 0 <= i <= |loaded| && photos == loaded
              invariant display == Reverse(loaded[..i]) + old(display)
              invariant 0 < i ==> CountShown()
              invariant i == 0 ==> countLabel == old(countLabel) && clearVisible == old(clearVisible)
            {
              AddPhotoToGallery(loaded[i]);
              assert loaded[..i + 1] == loaded[..i] + [loaded[i]];
              ReverseAppend(loaded[..i], loaded[i]);
              i := i + 1;
            }
            assert loaded[..i] == loaded;
        }
      }
    }

    /**
     * The gallery half of `savePhoto`: appends the entry, writes the list and
     * shows the entry first.
     */
    method Append(p: Photo, quotaExceeded: bool) returns (persisted: bool)
      modifies this, storage
      ensures photos == old(photos) + [p]
      ensures display == [p] + old(display)
      ensures old(InSync()) ==> InSync()
      ensures CountShown()
      ensures persisted <==> !quotaExceeded
      ensures persisted ==> Durable()
      ensures persisted ==> storage.items == old(storage.items)[PhotosKey := Serialized(photos)]
      ensures !persisted ==> storage.items == old(storage.items)
    {
      photos := photos + [p];
      persisted := SavePhotosToStorage(quotaExceeded);
      AddPhotoToGallery(p);
      ReverseAppend(old(photos), p);
    }

    /**
     * `deletePhoto`: when confirmed, drops every entry with the id from the
     * list, writes it, and removes the first shown entry with the id. When
     * declined, nothing changes.
     */
    method DeletePhoto(id: nat, confirmed: bool, quotaExceeded: bool) returns (persisted: bool)
      modifies this, storage
      ensures !confirmed ==> !persisted && unchanged(this) && unchanged(storage)
      ensures confirmed ==> photos == Filter(old(photos), id)
      ensures confirmed ==> display == RemoveFirst(old(display), id) && CountShown()
      ensures confirmed && old(InSync()) && UniqueIds(old(photos)) ==> InSync()
      ensures persisted <==> confirmed && !quotaExceeded
      ensures persisted ==> Durable()
      ensures persisted ==> storage.items == old(storage.items)[PhotosKey := Serialized(photos)]
      ensures !persisted ==> storage.items == old(storage.items)
    {
      if !confirmed {
        return false;
      }
      photos := Filter(photos, id);
      persisted := SavePhotosToStorage(quotaExceeded);
      display := RemoveFirst(display, id);
      UpdatePhotoCount();
      if old(InSync()) && UniqueIds(old(photos)) {
        DeleteKeepsDisplayInSync(old(photos), id);
      }
    }

    /** `clearGallery`: when confirmed, empties the list and the page and writes the empty list. */
    method ClearGallery(confirmed: bool, quotaExceeded: bool) returns (persisted: bool)
      modifies this, storage
      ensures !confirmed ==> !persisted && unchanged(this) && unchanged(storage)
      ensures confirmed ==> photos == [] && display == [] && InSync() && CountShown()
      ensures confirmed ==> countLabel == 0 && !clearVisible
      ensures persisted <==> confirmed && !quotaExceeded
      ensures persisted ==> Durable()
      ensures persisted ==> storage.items == old(storage.items)[PhotosKey := Serialized(photos)]
      ensures !persisted ==> storage.items == old(storage.items)
    {
      if !confirmed {
        return false;
      }
      photos := [];
      persisted := SavePhotosToStorage(quotaExceeded);
      display := [];
      UpdatePhotoCount();
    }
  }
}
