/**
 * The page as a whole: the camera session and the gallery, created and
 * loaded at startup, and `savePhoto`, which moves the pending capture from
 * the one into the other.
 */
module App {
  import opened Optional
  import opened CameraRules
  import opened Naming
  import opened PhotoList
  import opened Session
  import opened Storage
  import opened Gallery

  class CameraApp {
    const session: CameraSession
    const gallery: GalleryStore
    /** Whether `checkCameras` hid the switch control. */
    var switchHidden: bool

    ghost predicate Valid()
      reads this, session
    {
      session.Valid()
    }

    /**
     * Page start: empty module state, then `loadPhotosFromStorage`, then
     * `checkCameras` with the device list (`None` when listing fails).
     */
    constructor Start(storage: LocalStorage, listing: Option<seq<DeviceInfo>>)
      ensures Valid() && fresh(session) && fresh(gallery)
      ensures session.stream == None && session.facingMode == Environment && session.pendingImage == None
      ensures session.liveTracks == {} && session.deviceLog == []
      ensures gallery.storage == storage
      ensures gallery.photos == Restored(storage.items, [])
      ensures gallery.InSync()
      ensures gallery.photos != [] ==> gallery.CountShown()
      ensures switchHidden <==> listing.Some? && AtMostOneCamera(listing.value)
    {
      var g := new GalleryStore(storage);
      g.LoadPhotosFromStorage();
      gallery := g;
      session := new CameraSession();
      switchHidden := SwitchButtonHidden(listing);
    }

    /**
     * `savePhoto`: refused without a pending capture. Otherwise stores it as
     * an entry whose id is `timestamp` and whose camera is named after the
     * current facing mode, offers it for download as
     * `foto-<camera>-<id>.jpg`, and goes back to the camera (`retakePhoto`).
     * `persisted` is false when nothing was written or the write failed.
     */
    method SavePhoto(timestamp: nat, date: string, quotaExceeded: bool, grant: Option<Stream>)
      returns (download: Option<string>, persisted: bool)
      requires Valid()
      modifies session, gallery, gallery.storage
      ensures Valid()
      ensures old(session.pendingImage).None? ==>
                download == None && !persisted &&
                unchanged(session) && unchanged(gallery) && unchanged(gallery.storage)
      ensures old(session.pendingImage).Some? ==>
                var entry := Photo(timestamp, old(session.pendingImage).value, date, CameraLabel(old(session.facingMode)));
                && gallery.photos == old(gallery.photos) + [entry]
                && gallery.display == [entry] + old(gallery.display)
                && (old(gallery.InSync()) ==> gallery.InSync())
                && gallery.CountShown()
                && download == Some(DownloadName(entry.camera, timestamp))
                && (persisted <==> !quotaExceeded)
                && (persisted ==> gallery.Durable())
                && (persisted ==> gallery.storage.items == old(gallery.storage.items)[PhotosKey := Serialized(gallery.photos)])
                && (!persisted ==> gallery.storage.items == old(gallery.storage.items))
                && session.pendingImage == None
                && session.stream == grant
                && session.facingMode == old(session.facingMode)
                && session.deviceLog == old(session.deviceLog) + Release(old(session.stream)) + [Request(RequestFor(session.facingMode))]
    {
      if session.pendingImage.None? {
        return None, false;
      }
      var camera := CameraLabel(session.facingMode);
      var entry := Photo(timestamp, session.pendingImage.value, date, camera);
      persisted := gallery.Append(entry, quotaExceeded);
      download := Some(DownloadName(camera, timestamp));
      var _ := session.RetakePhoto(grant);
    }
  }

  /**
   * A reload of the page over the same storage (page start without the
   * device check) finds exactly the list the gallery last wrote.
   */
  method ReloadAfterWrite(g: GalleryStore) returns (h: GalleryStore)
    requires g.Durable()
    ensures fresh(h) && h.storage == g.storage
    ensures h.photos == g.photos && h.InSync()
  {
    h := new GalleryStore(g.storage);
    h.LoadPhotosFromStorage();
  }

  /**
   * A save whose write hits the quota keeps the entry on the page and in the
   * count, yet a reload finds the list as it was before that save.
   */
  method QuotaFailureIsLostOnReload(g: GalleryStore, p: Photo) returns (h: GalleryStore)
    requires g.Durable()
    modifies g, g.storage
    ensures g.photos == old(g.photos) + [p] && g.CountShown()
    ensures fresh(h) && h.photos == old(g.photos)
  {
    var persisted := g.Append(p, true);
    h := new GalleryStore(g.storage);
    h.LoadPhotosFromStorage();
  }
}
