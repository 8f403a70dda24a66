/**
 * The browser's key-value storage as the gallery sees it. A value is either
 * a photo list written by the gallery (serializing and parsing it back are
 * taken to be exact) or text that does not parse as one.
 */
module Storage {
  import opened PhotoList

  /** The one key under which the whole gallery is kept. */
  const PhotosKey: string := "carrucel-photos"

  datatype Stored = Serialized(photos: seq<Photo>) | Unparsable

  class LocalStorage {
    var items: map<string, Stored>

    constructor (initial: map<string, Stored>)
      ensures items == initial
    {
      items := initial;
    }

    /**
     * `setItem`: stores the value under the key, or throws (storage quota
     * exceeded) and leaves every item as it was. `quotaExceeded` is the
     * browser's answer.
     */
    method SetItem(key: string, photos: seq<Photo>, quotaExceeded: bool) returns (ok: bool)
      modifies this
      ensures ok <==> !quotaExceeded
      ensures ok ==> items == old(items)[key := Serialized(photos)]
      ensures !ok ==> items == old(items)
    {
      if quotaExceeded {
        return false;
      }
      items := items[key := Serialized(photos)];
      ok := true;
    }
  }
}
