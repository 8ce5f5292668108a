// The media picker used by the forms (ImageUploader): the file name and
// MIME type sent for an upload, the video test for previews, and the list
// of tiles and uploaded URLs that the component keeps while uploads run.
//
// Unknown values are "" (undefined in the source); the clock reading used
// in generated names and keys is a parameter.

module ImageUploader {
  import opened Basics
  import opened Text

  /** The seven MIME types with a known extension, in lower case. */
  const SupportedMimeTypes: seq<string> := [
    "image/jpeg", "image/png", "image/webp", "video/mp4", "video/quicktime", "video/x-m4v", "video/webm"
  ]

  /** `extensionFromMimeType` */
  function ExtensionFromMimeType(mime: string): (r: Option<string>)
    ensures r.Some? <==> ToLower(mime) in SupportedMimeTypes
    ensures r.Some? ==> '.' !in r.value && r.value != []
  {
    var m := ToLower(mime);
    if m == "image/jpeg" then Some("jpg")
    else if m == "image/png" then Some("png")
    else if m == "image/webp" then Some("webp")
    else if m == "video/mp4" then Some("mp4")
    else if m == "video/quicktime" then Some("mov")
    else if m == "video/x-m4v" then Some("m4v")
    else if m == "video/webm" then Some("webm")
    else None
  }

  /** The MIME type for a lower-cased extension. */
  function MimeForExtension(ext: string): string {
    if ext == "jpg" || ext == "jpeg" then "image/jpeg"
    else if ext == "png" then "image/png"
    else if ext == "webp" then "image/webp"
    else if ext == "mp4" then "video/mp4"
    else if ext == "mov" then "video/quicktime"
    else if ext == "m4v" then "video/x-m4v"
    else if ext == "webm" then "video/webm"
    else "application/octet-stream"
  }

  /** `guessMimeTypeFromName`: by the text after the last ".", or the whole name when there is none. */
  function GuessMimeType(name: string): (r: string)
    ensures r in SupportedMimeTypes || r == "application/octet-stream"
  {
    var parts := Split(name, '.');
    MimeForExtension(ToLower(parts[|parts| - 1]))
  }

  /** A name ending in the extension of a supported type is guessed back to that type. */
  lemma GuessMimeOfExtension(stem: string, mime: string)
    requires mime in SupportedMimeTypes
    ensures ExtensionFromMimeType(mime).Some?
    ensures GuessMimeType(stem + "." + ExtensionFromMimeType(mime).value) == mime
  {
    NoCapitals(mime);
    var ext := ExtensionFromMimeType(mime).value;
    SplitLast(stem, '.', ext);
    NoCapitals(ext);
    assert MimeForExtension(ext) == mime;
  }

  /** The supported types and their extensions have no capital letters, so lower-casing keeps them. */
  lemma NoCapitals(s: string)
    requires s in SupportedMimeTypes || s in ["jpg", "png", "webp", "mp4", "mov", "m4v", "webm"]
    ensures ToLower(s) == s
  {
    assert forall i :: 0 <= i < |s| ==> !('A' <= s[i] <= 'Z');
    assert forall i :: 0 <= i < |s| ==> ToLower(s)[i] == s[i];
  }

  /** `isVideo` */
  predicate IsVideo(uri: string) {
    var lower := ToLower(uri);
    EndsWith(lower, ".mp4") || EndsWith(lower, ".mov") || EndsWith(lower, ".m4v") || EndsWith(lower, ".webm")
  }

  /** When the lower-cased name ends in "." and an extension, the guessed extension is that one. */
  lemma LastPieceOfLowerSuffix(uri: string, ext: string)
    requires '.' !in ext
    requires EndsWith(ToLower(uri), "." + ext)
    ensures var parts := Split(uri, '.'); ToLower(parts[|parts| - 1]) == ext
  {
    var lower := ToLower(uri);
    var dot := |uri| - |ext| - 1;
    assert lower[dot..] == "." + ext;
    assert lower[dot] == '.';
    assert Lower(uri[dot]) == '.';
    var e := uri[dot + 1..];
    forall i | 0 <= i < |e| ensures Lower(e[i]) == ext[i] {
      assert lower[dot + 1 + i] == ("." + ext)[1 + i];
    }
    assert ToLower(e) == ext;
    assert '.' !in e by {
      forall i | 0 <= i < |e| ensures e[i] != '.' {
        assert Lower(e[i]) == ext[i];
      }
    }
    assert uri == uri[..dot] + ['.'] + e;
    SplitLast(uri[..dot], '.', e);
  }

  /** A name that previews as a video is uploaded with a video MIME type. */
  lemma VideoNamesHaveVideoType(uri: string)
    requires IsVideo(uri)
    ensures StartsWith(GuessMimeType(uri), "video/")
  {
    var lower := ToLower(uri);
    var ext := if EndsWith(lower, ".mp4") then "mp4"
      else if EndsWith(lower, ".mov") then "mov"
      else if EndsWith(lower, ".m4v") then "m4v"
      else "webm";
    assert EndsWith(lower, "." + ext);
    LastPieceOfLowerSuffix(uri, ext);
    VideoExtension(ext);
  }

  lemma VideoExtension(ext: string)
    requires ext == "mp4" || ext == "mov" || ext == "m4v" || ext == "webm"
    ensures StartsWith(MimeForExtension(ext), "video/")
  {
  }

  /** The last segment of a URI path. */
  function LastSegment(uri: string): (r: string)
    ensures '/' !in r
  {
    var parts := Split(uri, '/');
    parts[|parts| - 1]
  }

  /** `deriveFileName` */
  function DeriveFileName(fileName: string, uri: string, mimeType: string, timestamp: nat): (r: string)
    ensures fileName != "" ==> r == fileName
    ensures fileName == "" && uri != "" && '.' in LastSegment(uri) ==> r == LastSegment(uri)
    ensures fileName == "" && (uri == "" || '.' !in LastSegment(uri)) ==>
      r == "upload_" + NatToString(timestamp) + "." + ExtensionFromMimeType(mimeType).GetOr("jpg")
  {
    if fileName != "" then fileName
    else if uri != "" && LastSegment(uri) != "" && '.' in LastSegment(uri) then LastSegment(uri)
    else "upload_" + NatToString(timestamp) + "." + ExtensionFromMimeType(mimeType).GetOr("jpg")
  }

  /** A generated name carries the extension of the asset's type, so it is guessed back to that type. */
  lemma GeneratedNameKeepsType(uri: string, mimeType: string, timestamp: nat)
    requires uri == "" || '.' !in LastSegment(uri)
    requires mimeType in SupportedMimeTypes
    ensures GuessMimeType(DeriveFileName("", uri, mimeType, timestamp)) == mimeType
  {
    GuessMimeOfExtension("upload_" + NatToString(timestamp), mimeType);
  }

  /** The prefix rule: prepend the prefix unless the name already holds it, ignoring case. */
  function WithPrefix(fileName: string, prefix: string): (r: string)
    ensures prefix == "" || Contains(ToLower(fileName), ToLower(prefix)) ==> r == fileName
    ensures prefix != "" && !Contains(ToLower(fileName), ToLower(prefix)) ==> r == prefix + fileName
  {
    if prefix != "" && !Contains(ToLower(fileName), ToLower(prefix)) then prefix + fileName else fileName
  }

  /** After the rule the name holds the prefix, and applying the rule again changes nothing. */
  lemma WithPrefixHoldsPrefix(fileName: string, prefix: string)
    ensures Contains(ToLower(WithPrefix(fileName, prefix)), ToLower(prefix))
    ensures WithPrefix(WithPrefix(fileName, prefix), prefix) == WithPrefix(fileName, prefix)
  {
    var r := WithPrefix(fileName, prefix);
    if prefix == "" {
      ContainsEmpty(ToLower(fileName));
    } else if r != fileName {
      assert ToLower(r) == ToLower(prefix) + ToLower(fileName);
      assert StartsWith(ToLower(r)[0..], ToLower(prefix));
    }
  }

  /** The name and type sent for one asset. */
  function UploadNameAndType(fileName: string, uri: string, mimeType: string, prefix: string, timestamp: nat): (r: (string, string))
    ensures mimeType != "" ==> r.1 == mimeType
    ensures mimeType == "" ==> r.1 == GuessMimeType(r.0)
  {
    var name := WithPrefix(DeriveFileName(fileName, uri, mimeType, timestamp), prefix);
    (name, if mimeType != "" then mimeType else GuessMimeType(name))
  }

  // ------------------------------------------------------------------ tiles

  /** One tile: a local placeholder while uploading, a remote URL afterwards. */
  datatype Item = Item(key: string, uri: string, uploading: bool, remote: bool)

  /** `.filter((_, i) => i !== idx)` */
  function RemoveAt<T>(s: seq<T>, idx: nat): (r: seq<T>)
    ensures idx < |s| ==> |r| == |s| - 1 && forall i :: 0 <= i < |r| ==> r[i] == if i < idx then s[i] else s[i + 1]
    ensures idx >= |s| ==> r == s
  {
    if idx < |s| then s[..idx] + s[idx + 1..] else s
  }

  function ExistingItems(urls: seq<string>): (r: seq<Item>)
    ensures |r| == |urls|
    ensures forall i :: 0 <= i < |urls| ==> r[i].uri == urls[i] && r[i].remote && !r[i].uploading
  {
    seq(|urls|, i requires 0 <= i < |urls| => Item(NatToString(i) + "-" + urls[i], urls[i], false, true))
  }

  function Placeholders(assets: seq<(string, string)>): (r: seq<Item>)
    ensures |r| == |assets|
    ensures forall i :: 0 <= i < |assets| ==> r[i] == Item(assets[i].0, assets[i].1, true, false)
  {
    seq(|assets|, i requires 0 <= i < |assets| => Item(assets[i].0, assets[i].1, true, false))
  }

  /** A finished upload turns the placeholder with the key into the remote tile. */
  function Uploaded(items: seq<Item>, key: string, publicUrl: string): (r: seq<Item>)
    ensures |r| == |items|
    ensures forall i :: 0 <= i < |items| ==> r[i] == if items[i].key == key then Item(key, publicUrl, false, true) else items[i]
  {
    seq(|items|, i requires 0 <= i < |items| => if items[i].key == key then Item(key, publicUrl, false, true) else items[i])
  }

  /** The URLs of the remote tiles, in tile order: what the form should hold. */
  function RemoteUris(items: seq<Item>): seq<string> {
    if items == [] then []
    else (if items[0].remote then [items[0].uri] else []) + RemoteUris(items[1..])
  }

  lemma {:induction false} RemoteUrisAppend(a: seq<Item>, b: seq<Item>)
    ensures RemoteUris(a + b) == RemoteUris(a) + RemoteUris(b)
  {
    if a != [] {
      assert (a + b)[1..] == a[1..] + b;
      RemoteUrisAppend(a[1..], b);
    } else {
      assert a + b == b;
    }
  }

  /** A list is the part before `idx`, the element at `idx` and the part after; RemoveAt drops the middle. */
  lemma RemoveAtSplits<T>(s: seq<T>, idx: nat)
    requires idx < |s|
    ensures s == s[..idx] + [s[idx]] + s[idx + 1..]
    ensures RemoveAt(s, idx) == s[..idx] + s[idx + 1..]
  {
  }

  /** The remote URLs around one tile: those before it, its own if remote, then those after it. */
  lemma RemoteUrisAround(before: seq<Item>, m: Item, after: seq<Item>)
    ensures RemoteUris(before + [m] + after) ==
      RemoteUris(before) + (if m.remote then [m.uri] else []) + RemoteUris(after)
  {
    RemoteUrisAppend(before + [m], after);
    RemoteUrisAppend(before, [m]);
    assert [m][1..] == [];
  }

  /** Removing a tile removes exactly its URL, if it has one, from the remote list, keeping the others in order. */
  lemma RemoteUrisRemoveAt(items: seq<Item>, idx: nat)
    requires idx < |items|
    ensures RemoteUris(RemoveAt(items, idx)) ==
      RemoteUris(items[..idx]) + RemoteUris(items[idx + 1..])
    ensures RemoteUris(items) ==
      RemoteUris(items[..idx]) + (if items[idx].remote then [items[idx].uri] else []) + RemoteUris(items[idx + 1..])
  {
    RemoveAtSplits(items, idx);
    RemoteUrisAppend(items[..idx], items[idx + 1..]);
    RemoteUrisAround(items[..idx], items[idx], items[idx + 1..]);
  }

  /**
   * The component's state as written: the tiles, and the URL list it hands
   * to the form, which grows in the order uploads finish and shrinks by
   * tile index.
   */
  class Uploader {
    const multiple: bool
    var items: seq<Item>
    var remoteUrls: seq<string>

    constructor (multiple: bool, existingUrls: seq<string>)
      ensures this.multiple == multiple
      ensures items == ExistingItems(existingUrls) && remoteUrls == existingUrls
    {
      this.multiple := multiple;
      items := ExistingItems(existingUrls);
      remoteUrls := existingUrls;
    }

    /** Picking assets (key and local URI each): placeholders join the tiles, or replace them in single mode. */
    method Pick(assets: seq<(string, string)>)
      requires |assets| >= 1
      modifies this`items
      ensures multiple ==> items == old(items) + Placeholders(assets)
      ensures !multiple ==> items == Placeholders(assets[..1])
    {
      var chosen := if multiple then assets else assets[..1];
      var optimistic := Placeholders(chosen);
      items := if multiple then items + optimistic else optimistic;
    }

    /** An upload finished: its tile shows the remote URL, which is appended to the list handed to the form. */
    method UploadDone(key: string, publicUrl: string) returns (emitted: seq<string>)
      modifies this`items, this`remoteUrls
      ensures items == Uploaded(old(items), key, publicUrl)
      ensures remoteUrls == (if multiple then old(remoteUrls) + [publicUrl] else [publicUrl])
      ensures emitted == remoteUrls
    {
      items := Uploaded(items, key, publicUrl);
      remoteUrls := if multiple then remoteUrls + [publicUrl] else [publicUrl];
      emitted := remoteUrls;
    }

    /** `handleRemove`: the tile and the URL at the same index go. */
    method Remove(idx: nat) returns (emitted: seq<string>)
      modifies this`items, this`remoteUrls
      ensures items == RemoveAt(old(items), idx) && remoteUrls == RemoveAt(old(remoteUrls), idx)
      ensures emitted == remoteUrls
    {
      items := RemoveAt(items, idx);
      remoteUrls := RemoveAt(remoteUrls, idx);
      emitted := remoteUrls;
    }

    /** An upload finished, with the form's list recomputed from the tiles. */
    method UploadDoneByTiles(key: string, publicUrl: string) returns (emitted: seq<string>)
      modifies this`items, this`remoteUrls
      ensures items == Uploaded(old(items), key, publicUrl)
      ensures remoteUrls == RemoteUris(items) && emitted == remoteUrls
    {
      items := Uploaded(items, key, publicUrl);
      remoteUrls := RemoteUris(items);
      emitted := remoteUrls;
    }

    /** Removing a tile, with the form's list recomputed from the tiles: exactly that tile's URL goes. */
    method RemoveByTiles(idx: nat) returns (emitted: seq<string>)
      requires remoteUrls == RemoteUris(items)
      modifies this`items, this`remoteUrls
      ensures items == RemoveAt(old(items), idx)
      ensures remoteUrls == RemoteUris(items) && emitted == remoteUrls
      ensures idx < |old(items)| ==>
        old(remoteUrls) == RemoteUris(old(items)[..idx])
          + (if old(items)[idx].remote then [old(items)[idx].uri] else []) + RemoteUris(old(items)[idx + 1..])
        && remoteUrls == RemoteUris(old(items)[..idx]) + RemoteUris(old(items)[idx + 1..])
    {
      if idx < |items| {
        RemoteUrisRemoveAt(items, idx);
      }
      items := RemoveAt(items, idx);
      remoteUrls := RemoteUris(items);
      emitted := remoteUrls;
    }
  }

  /**
   * Two images picked together whose uploads finish in reverse order, then
   * the first tile removed: the form is left with the URL of the removed
   * image while the remaining tile shows the other one.
   */
  method OutOfOrderUploadsThenRemove() returns (emitted: seq<string>, shown: seq<string>)
    ensures emitted == ["https://cdn/a.jpg"] && shown == ["https://cdn/b.jpg"]
  {
    var u := new Uploader(true, []);
    u.Pick([("a", "file:///a.jpg"), ("b", "file:///b.jpg")]);
    var _ := u.UploadDone("b", "https://cdn/b.jpg");
    var _ := u.UploadDone("a", "https://cdn/a.jpg");
    assert u.items == [Item("a", "https://cdn/a.jpg", false, true), Item("b", "https://cdn/b.jpg", false, true)];
    emitted := u.Remove(0);
    assert u.items == [Item("b", "https://cdn/b.jpg", false, true)];
    var left := u.items;
    assert left == [Item("b", "https://cdn/b.jpg", false, true)];
    assert left[1..] == [];
    assert RemoteUris(left[1..]) == [];
    shown := RemoteUris(left);
  }

  /** The same sequence of events with the list recomputed from the tiles keeps the shown image. */
  method OutOfOrderUploadsThenRemoveByTiles() returns (emitted: seq<string>, shown: seq<string>)
    ensures emitted == shown == ["https://cdn/b.jpg"]
  {
    var u := new Uploader(true, []);
    u.Pick([("a", "file:///a.jpg"), ("b", "file:///b.jpg")]);
    var _ := u.UploadDoneByTiles("b", "https://cdn/b.jpg");
    var _ := u.UploadDoneByTiles("a", "https://cdn/a.jpg");
    assert u.items == [Item("a", "https://cdn/a.jpg", false, true), Item("b", "https://cdn/b.jpg", false, true)];
    emitted := u.RemoveByTiles(0);
    shown := RemoteUris(u.items);
  }
}
