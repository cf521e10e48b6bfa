/**
 * Public-id handling and the retention sweep of the Cloudinary storage
 * helper (burglary_alert/utils/storage.py). The upload and destroy calls are
 * an oracle: `destroy` says what Cloudinary answered for a public id.
 */
module CloudStorage {
  import opened Wrappers
  import opened Text

  const DefaultFolder: string := "burglary_alerts"
  const DefaultRetentionHours: nat := 24
  const HourUs: int := 3_600_000_000

  /** What `cloudinary.uploader.destroy(public_id)` did: raised, or returned a dict whose "result" may be absent. */
  datatype DestroyReply = Raised | Replied(result: Option<string>)

  /** `public_id_with_ext.rsplit(".", 1)[0]`: the text before the last '.', or all of it when there is none. */
  function RemoveExtension(s: string): (r: string)
    ensures r <= s
    ensures '.' !in s ==> r == s
    ensures '.' in s ==> |r| < |s| && s[|r|] == '.' && '.' !in s[|r| + 1..]
  {
    if '.' !in s then s
    else if s[|s| - 1] == '.' then s[..|s| - 1]
    else
      var r := RemoveExtension(s[..|s| - 1]);
      assert s[..|s| - 1] + [s[|s| - 1]] == s;
      r
  }

  /** Dropping a final ".jpg" gives back what was before it, whatever that contains. */
  lemma RemoveJpg(x: string)
    ensures RemoveExtension(x + ".jpg") == x
  {
    var s := x + ".jpg";
    assert s[..|s| - 1] == x + ".jp";
    assert (x + ".jp")[..|x| + 2] == x + ".j";
    assert (x + ".j")[..|x| + 1] == x + ".";
    assert (x + ".")[..|x|] == x;
  }

  /**
   * The public id `delete_image` derives from an image URL: the segments
   * after the first "upload" segment, joined with '/', without the extension;
   * None when there is no "upload" segment.
   */
  function PublicIdFromUrl(url: string): (r: Option<string>)
    ensures r.None? <==> "upload" !in Split(url, '/')
  {
    var parts := Split(url, '/');
    if "upload" in parts then
      var k := IndexOf(parts, "upload");
      Some(RemoveExtension(Join(parts[k + 1..], '/')))
    else None
  }

  /**
   * Round trip with the upload side: for a URL made of leading segments
   * without "upload", an "upload" segment, then `publicId + ".jpg"`, the
   * extracted id is `publicId` (it may itself contain '/' and '.').
   */
  lemma {:induction false} PublicIdRoundTrip(prefix: seq<string>, publicId: string)
    requires "upload" !in prefix
    requires forall k :: 0 <= k < |prefix| ==> '/' !in prefix[k]
    ensures PublicIdFromUrl(Join(prefix + ["upload"], '/') + "/" + publicId + ".jpg") == Some(publicId)
  {
    var tail := publicId + ".jpg";
    var head := prefix + ["upload"];
    var url := Join(head, '/') + "/" + publicId + ".jpg";
    assert url == Join(head, '/') + "/" + tail;
    SplitPrefix(head, tail);
    var parts := Split(url, '/');
    assert parts == head + Split(tail, '/');
    assert parts[|prefix|] == "upload";
    assert forall j :: 0 <= j < |prefix| ==> parts[j] == prefix[j];
    assert IndexOf(parts, "upload") == |prefix|;
    assert parts[|prefix| + 1..] == Split(tail, '/');
    assert Join(parts[|prefix| + 1..], '/') == tail;
    RemoveJpg(publicId);
  }

  /** Splitting `Join(head) + "/" + tail` yields `head` followed by the pieces of `tail`. */
  lemma SplitPrefix(head: seq<string>, tail: string)
    requires |head| >= 1
    requires forall k :: 0 <= k < |head| ==> '/' !in head[k]
    ensures Split(Join(head, '/') + "/" + tail, '/') == head + Split(tail, '/')
  {
    var pieces := Split(tail, '/');
    var all := head + pieces;
    JoinAppend(head, pieces, '/');
    forall k | 0 <= k < |all| ensures '/' !in all[k] {
      if k >= |head| {
        assert all[k] == pieces[k - |head|];
      }
    }
    SplitJoin(all, '/');
  }

  /**
   * `delete_image`: True exactly when the URL has an "upload" segment and
   * Cloudinary answered "ok" for the derived public id; a raise is False.
   */
  function DeleteImage(url: string, destroy: string -> DestroyReply): (ok: bool)
    ensures ok <==> PublicIdFromUrl(url).Some? && destroy(PublicIdFromUrl(url).value) == Replied(Some("ok"))
  {
    match PublicIdFromUrl(url)
    case None => false
    case Some(id) =>
      match destroy(id)
      case Raised => false
      case Replied(result) => result == Some("ok")
  }

  /** The public id `save_image` uploads under: `folder/timestamp_filename`, every ".jpg" removed from the file name. */
  function SavePublicId(folder: string, timestamp: string, filename: string): (id: string)
    ensures folder + "/" + timestamp + "_" <= id
    ensures !Contains(filename, ".jpg") ==> id == folder + "/" + timestamp + "_" + filename
  {
    if !Contains(filename, ".jpg") then
      RemoveAllAbsent(filename, ".jpg");
      folder + "/" + timestamp + "_" + RemoveAll(filename, ".jpg")
    else
      folder + "/" + timestamp + "_" + RemoveAll(filename, ".jpg")
  }

  /** The name the image router gives an upload, `capture_<seconds>.jpg`, loses exactly its extension. */
  lemma {:induction false} SaveCaptureName(folder: string, timestamp: string, stem: string)
    requires '.' !in stem
    ensures SavePublicId(folder, timestamp, stem + ".jpg") == folder + "/" + timestamp + "_" + stem
  {
    var s := stem + ".jpg";
    forall k | 0 <= k < |stem| ensures !(".jpg" <= s[k..]) {
      assert s[k..][0] == stem[k];
    }
    RemoveAllSuffix(stem, ".jpg");
  }

  /** A stored image row (burglary_alert/models/image.py): id, timestamp, Cloudinary URL. */
  datatype StoredImage = StoredImage(id: int, timestamp: int, imagePath: string)

  /** True when the sweep removes this row: older than the cutoff and deleted from Cloudinary. */
  predicate Swept(r: StoredImage, cutoff: int, destroy: string -> DestroyReply) {
    r.timestamp < cutoff && DeleteImage(r.imagePath, destroy)
  }

  /** The rows the sweep keeps, in table order. */
  function Kept(rows: seq<StoredImage>, cutoff: int, destroy: string -> DestroyReply): (r: seq<StoredImage>)
    ensures forall x :: x in r <==> x in rows && !Swept(x, cutoff, destroy)
    ensures |r| <= |rows|
  {
    if rows == [] then []
    else
      var rest := Kept(rows[1..], cutoff, destroy);
      assert rows == [rows[0]] + rows[1..];
      if Swept(rows[0], cutoff, destroy) then rest else [rows[0]] + rest
  }

  /** The query `Image.timestamp < cutoff_time`: the old rows, in table order. */
  function OldImages(rows: seq<StoredImage>, cutoff: int): (r: seq<StoredImage>)
    ensures forall x :: x in r <==> x in rows && x.timestamp < cutoff
    ensures |r| <= |rows|
  {
    if rows == [] then []
    else
      var rest := OldImages(rows[1..], cutoff);
      assert rows == [rows[0]] + rows[1..];
      if rows[0].timestamp < cutoff then [rows[0]] + rest else rest
  }

  /** How many of `images` Cloudinary deletes. */
  function Deletions(images: seq<StoredImage>, destroy: string -> DestroyReply): nat {
    if images == [] then 0
    else (if DeleteImage(images[0].imagePath, destroy) then 1 else 0) + Deletions(images[1..], destroy)
  }

  /** The count the sweep returns is the number of rows it removes. */
  lemma {:induction false} DeletionsCountRemoved(rows: seq<StoredImage>, cutoff: int, destroy: string -> DestroyReply)
    ensures |Kept(rows, cutoff, destroy)| + Deletions(OldImages(rows, cutoff), destroy) == |rows|
  {
    if rows != [] {
      DeletionsCountRemoved(rows[1..], cutoff, destroy);
      if rows[0].timestamp < cutoff {
        assert OldImages(rows, cutoff)[1..] == OldImages(rows[1..], cutoff);
      }
    }
  }

  /** `db_session.delete(image)`: removes the row. */
  function Remove(rows: seq<StoredImage>, x: StoredImage): (r: seq<StoredImage>)
    ensures forall y :: y in r <==> y in rows && y != x
  {
    if rows == [] then []
    else
      var rest := Remove(rows[1..], x);
      assert rows == [rows[0]] + rows[1..];
      if rows[0] == x then rest else [rows[0]] + rest
  }

  /** The rows left once the sweep has handled the images of `done`. */
  function KeptAfter(rows: seq<StoredImage>, done: seq<StoredImage>, destroy: string -> DestroyReply): seq<StoredImage>
  {
    if rows == [] then []
    else
      var rest := KeptAfter(rows[1..], done, destroy);
      if rows[0] in done && DeleteImage(rows[0].imagePath, destroy) then rest else [rows[0]] + rest
  }

  lemma {:induction false} KeptAfterNone(rows: seq<StoredImage>, destroy: string -> DestroyReply)
    ensures KeptAfter(rows, [], destroy) == rows
  {
    if rows != [] {
      KeptAfterNone(rows[1..], destroy);
      assert rows == [rows[0]] + rows[1..];
    }
  }

  lemma {:induction false} KeptAfterStep(rows: seq<StoredImage>, done: seq<StoredImage>, x: StoredImage, destroy: string -> DestroyReply)
    ensures KeptAfter(rows, done + [x], destroy) ==
              if DeleteImage(x.imagePath, destroy) then Remove(KeptAfter(rows, done, destroy), x)
              else KeptAfter(rows, done, destroy)
  {
    if rows != [] {
      KeptAfterStep(rows[1..], done, x, destroy);
    }
  }

  lemma {:induction false} KeptAfterAll(rows: seq<StoredImage>, done: seq<StoredImage>, cutoff: int, destroy: string -> DestroyReply)
    requires forall x :: x in rows ==> (x in done <==> x.timestamp < cutoff)
    ensures KeptAfter(rows, done, destroy) == Kept(rows, cutoff, destroy)
  {
    if rows != [] {
      assert rows[0] in rows;
      KeptAfterAll(rows[1..], done, cutoff, destroy);
    }
  }

  /** The image table the sweep works on. */
  class ImageTable {
    var rows: seq<StoredImage>

    constructor ()
      ensures rows == []
    {
      rows := [];
    }

    /**
     * `cleanup_old_images`: every row older than `now - retentionHours`
     * whose Cloudinary delete succeeds is removed, and the result is how
     * many rows were removed (0 when there are no old rows).
     */
    method CleanupOldImages(now: int, retentionHours: int, destroy: string -> DestroyReply) returns (deletedCount: nat)
      modifies this
      ensures rows == Kept(old(rows), now - retentionHours * HourUs, destroy)
      ensures deletedCount == |old(rows)| - |rows|
    {
      var cutoff := now - retentionHours * HourUs;
      var oldImages := OldImages(rows, cutoff);
      ghost var snapshot := rows;
      SweepOutcome(snapshot, oldImages, cutoff, destroy);
      if oldImages == [] {
        return 0;
      }
      deletedCount := 0;
      for i := 0 to |oldImages|
        invariant rows == KeptAfter(snapshot, oldImages[..i], destroy)
        invariant deletedCount == Deletions(oldImages[..i], destroy)
      {
        var image := oldImages[i];
        SweepStep(snapshot, oldImages, i, destroy);
        if DeleteImage(image.imagePath, destroy) {
          rows := Remove(rows, image);
          deletedCount := deletedCount + 1;
        }
      }
      assert oldImages[..|oldImages|] == oldImages;
    }
  }

  /** What the sweep loop arrives at, and where it starts. */
  lemma SweepOutcome(rows: seq<StoredImage>, oldImages: seq<StoredImage>, cutoff: int, destroy: string -> DestroyReply)
    requires oldImages == OldImages(rows, cutoff)
    ensures KeptAfter(rows, [], destroy) == rows
    ensures KeptAfter(rows, oldImages, destroy) == Kept(rows, cutoff, destroy)
    ensures Deletions(oldImages, destroy) == |rows| - |Kept(rows, cutoff, destroy)|
    ensures oldImages == [] ==> Kept(rows, cutoff, destroy) == rows
  {
    KeptAfterNone(rows, destroy);
    KeptAfterAll(rows, oldImages, cutoff, destroy);
    DeletionsCountRemoved(rows, cutoff, destroy);
    if oldImages == [] {
      assert Deletions(oldImages, destroy) == 0;
      KeptSubsequence(rows, cutoff, destroy);
    }
  }

  /** One iteration of the sweep loop. */
  lemma SweepStep(rows: seq<StoredImage>, oldImages: seq<StoredImage>, i: nat, destroy: string -> DestroyReply)
    requires i < |oldImages|
    ensures KeptAfter(rows, oldImages[..i + 1], destroy) ==
              if DeleteImage(oldImages[i].imagePath, destroy) then Remove(KeptAfter(rows, oldImages[..i], destroy), oldImages[i])
              else KeptAfter(rows, oldImages[..i], destroy)
    ensures Deletions(oldImages[..i + 1], destroy) ==
              Deletions(oldImages[..i], destroy) + (if DeleteImage(oldImages[i].imagePath, destroy) then 1 else 0)
  {
    assert oldImages[..i + 1] == oldImages[..i] + [oldImages[i]];
    KeptAfterStep(rows, oldImages[..i], oldImages[i], destroy);
    DeletionsAppend(oldImages[..i], oldImages[i], destroy);
  }

  /** Keeping all but n rows of a list leaves a list n shorter; keeping as many rows as there are keeps them all. */
  lemma {:induction false} KeptSubsequence(rows: seq<StoredImage>, cutoff: int, destroy: string -> DestroyReply)
    requires |Kept(rows, cutoff, destroy)| == |rows|
    ensures Kept(rows, cutoff, destroy) == rows
  {
    if rows != [] {
      assert |Kept(rows[1..], cutoff, destroy)| <= |rows[1..]|;
      KeptSubsequence(rows[1..], cutoff, destroy);
    }
  }

  lemma {:induction false} DeletionsAppend(images: seq<StoredImage>, x: StoredImage, destroy: string -> DestroyReply)
    ensures Deletions(images + [x], destroy) == Deletions(images, destroy) + (if DeleteImage(x.imagePath, destroy) then 1 else 0)
  {
    if images != [] {
      assert (images + [x])[1..] == images[1..] + [x];
      DeletionsAppend(images[1..], x, destroy);
    }
  }
}
