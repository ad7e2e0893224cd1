/** The photo service backed by the document and blob stores
    (Couply/Core/Services/PhotoService.swift): the live feed, uploading,
    reacting, viewing and deleting photos, and the couple's streak counters
    that every upload advances. Download URLs, fresh photo ids, the clock and
    the calendar (`dayOf`, `today`) are parameters. */
module PhotoSync {
  import opened Store
  import opened Couples
  import opened Photos
  import Users

  datatype PhotoError = NotAuthenticated | CompressionFailed | UploadFailed | DownloadFailed | DeleteFailed

  datatype Failure = Rejected(reason: PhotoError) | StoreFailed(cause: StoreError)

  function Max(a: int, b: int): int {
    if a >= b then a else b
  }

  // ---------------------------------------------------------------------
  // Couple statistics

  /** The streak an upload leaves: 1 when no streak update was ever recorded,
      one more than the stored streak when the last update fell on another day
      (however long ago), the stored streak when it fell on `today`. */
  function NextStreak(d: Doc, dayOf: int -> int, today: int): int {
    var current := IntOrZero(d, StreakCount);
    var last := TimeField(d, LastStreakUpdate);
    if last.None? then 1
    else if dayOf(last.value) != today then current + 1
    else current
  }

  /** The transaction of `updateCoupleStats` applied to an existing couple
      document: missing or non-integer counters read as 0, five fields
      written, every other field kept. */
  function StatsUpdate(d: Doc, now: int, dayOf: int -> int, today: int): (r: Doc)
    ensures r.Keys == d.Keys + {StreakCount, LongestStreak, TotalPhotosExchanged, LastPhotoDate, LastStreakUpdate}
    ensures forall k :: k in d && k !in {StreakCount, LongestStreak, TotalPhotosExchanged, LastPhotoDate, LastStreakUpdate}
                        ==> r[k] == d[k]
  {
    var streak := NextStreak(d, dayOf, today);
    d[StreakCount := VInt(streak)]
     [LongestStreak := VInt(Max(IntOrZero(d, LongestStreak), streak))]
     [TotalPhotosExchanged := VInt(IntOrZero(d, TotalPhotosExchanged) + 1)]
     [LastPhotoDate := VTime(now)]
     [LastStreakUpdate := VTime(now)]
  }

  /** The three streak rules, read back from the written document. */
  lemma StreakRules(d: Doc, now: int, dayOf: int -> int, today: int)
    ensures var r := StatsUpdate(d, now, dayOf, today);
      && (TimeField(d, LastStreakUpdate).None? ==> r[StreakCount] == VInt(1))
      && (TimeField(d, LastStreakUpdate).Some? && dayOf(d[LastStreakUpdate].t) != today ==>
            r[StreakCount] == VInt(IntOrZero(d, StreakCount) + 1))
      && (TimeField(d, LastStreakUpdate).Some? && dayOf(d[LastStreakUpdate].t) == today ==>
            r[StreakCount] == VInt(IntOrZero(d, StreakCount)))
      && r[LastPhotoDate] == VTime(now) && r[LastStreakUpdate] == VTime(now)
  {
  }

  /** The longest streak is the larger of the stored one and the new streak:
      it never decreases and is never below the new streak. The photo total
      grows by exactly one. */
  lemma {:induction false} CountersAdvance(d: Doc, now: int, dayOf: int -> int, today: int)
    ensures var r := StatsUpdate(d, now, dayOf, today);
      && r[LongestStreak].n >= IntOrZero(d, LongestStreak)
      && r[LongestStreak].n >= r[StreakCount].n
      && (r[LongestStreak].n == IntOrZero(d, LongestStreak) || r[LongestStreak].n == r[StreakCount].n)
      && r[TotalPhotosExchanged] == VInt(IntOrZero(d, TotalPhotosExchanged) + 1)
  {
    var streak := NextStreak(d, dayOf, today);
    var r := StatsUpdate(d, now, dayOf, today);
    assert r[StreakCount] == VInt(streak);
    assert r[LongestStreak] == VInt(Max(IntOrZero(d, LongestStreak), streak));
  }

  /** Once a streak update has been recorded, an upload never lowers the
      streak. */
  lemma StreakNeverDropsOnceStarted(d: Doc, now: int, dayOf: int -> int, today: int)
    requires TimeField(d, LastStreakUpdate).Some?
    ensures StatsUpdate(d, now, dayOf, today)[StreakCount].n >= IntOrZero(d, StreakCount)
  {
  }

  /** A second upload on the same day as the first adds to the photo total
      but not to the streak: the streak grows at most once per day. */
  lemma {:induction false} SameDayUploadsCountOnce(d: Doc, now1: int, now2: int, dayOf: int -> int, today: int)
    requires dayOf(now1) == today
    ensures var once := StatsUpdate(d, now1, dayOf, today);
            var twice := StatsUpdate(once, now2, dayOf, today);
      && twice[StreakCount] == once[StreakCount]
      && twice[TotalPhotosExchanged] == VInt(IntOrZero(d, TotalPhotosExchanged) + 2)
      && twice[LongestStreak] == once[LongestStreak]
  {
    var once := StatsUpdate(d, now1, dayOf, today);
    CountersAdvance(d, now1, dayOf, today);
    assert TimeField(once, LastStreakUpdate) == Some(now1);
    assert NextStreak(once, dayOf, today) == once[StreakCount].n;
  }

  /** The couple `c` after an upload at `now` that set the streak to
      `streak`. */
  function Advanced(c: Couple, streak: int, now: int): Couple {
    c.(streakCount := streak, longestStreak := Max(c.longestStreak, streak),
       totalPhotosExchanged := c.totalPhotosExchanged + 1,
       lastPhotoDate := Some(now), lastStreakUpdate := Some(now))
  }

  /** The update seen through the Couple model: a couple document that
      decodes to a couple with consistent counters still decodes after the
      update, to the same couple with advanced counters, and the counters
      stay consistent. */
  lemma {:induction false} StatsUpdateKeepsCoupleConsistent(id: Option<string>, d: Doc, c: Couple, now: int,
                                                            dayOf: int -> int, today: int)
    requires CoupleFromDoc(id, d) == Some(c) && CountersConsistent(c)
    ensures var c' := Advanced(c, NextStreak(d, dayOf, today), now);
      && CoupleFromDoc(id, StatsUpdate(d, now, dayOf, today)) == Some(c')
      && CountersConsistent(c')
  {
    StatsUpdateDecodes(id, d, c, now, dayOf, today);
  }

  /** Whatever the stored counters, a couple document still decodes after the
      update, to the couple with its counters advanced and both dates set to
      `now`. */
  lemma {:induction false} StatsUpdateDecodes(id: Option<string>, d: Doc, c: Couple, now: int,
                                              dayOf: int -> int, today: int)
    requires CoupleFromDoc(id, d) == Some(c)
    ensures CoupleFromDoc(id, StatsUpdate(d, now, dayOf, today)) == Some(Advanced(c, NextStreak(d, dayOf, today), now))
  {
    var r := StatsUpdate(d, now, dayOf, today);
    var streak := NextStreak(d, dayOf, today);
    assert IntOrZero(d, StreakCount) == c.streakCount;
    assert IntOrZero(d, LongestStreak) == c.longestStreak;
    assert IntOrZero(d, TotalPhotosExchanged) == c.totalPhotosExchanged;
    assert StrField(r, User1ID) == StrField(d, User1ID) && StrField(r, User2ID) == StrField(d, User2ID);
    assert TimeField(r, CreatedAt) == TimeField(d, CreatedAt);
    assert DecodeOptStr(r, InviteCodeKey) == DecodeOptStr(d, InviteCodeKey);
    assert DecodeOptTime(r, AnniversaryDate) == DecodeOptTime(d, AnniversaryDate);
    assert IntField(r, StreakCount) == Some(streak);
    assert IntField(r, LongestStreak) == Some(Max(c.longestStreak, streak));
    assert IntField(r, TotalPhotosExchanged) == Some(c.totalPhotosExchanged + 1);
    assert DecodeOptTime(r, LastPhotoDate) == Some(Some(now));
    assert DecodeOptTime(r, LastStreakUpdate) == Some(Some(now));
  }

  /** An upload keeps the couple's streak active on the day of the upload and
      on the day after, and on no other day. */
  lemma {:induction false} UploadKeepsStreakActive(id: Option<string>, d: Doc, c: Couple, now: int,
                                                   dayOf: int -> int, today: int)
    requires CoupleFromDoc(id, d) == Some(c)
    ensures var c' := Advanced(c, NextStreak(d, dayOf, today), now);
      && CoupleFromDoc(id, StatsUpdate(d, now, dayOf, today)) == Some(c')
      && forall day :: IsStreakActive(c', dayOf, day) <==> day == dayOf(now) || day == dayOf(now) + 1
  {
    StatsUpdateDecodes(id, d, c, now, dayOf, today);
  }

  /** As written, the streak grows after a gap of any length: a couple whose
      streak is no longer active still gets one more on its next upload. */
  lemma {:induction false} LapsedStreakStillGrows(id: Option<string>, d: Doc, c: Couple, dayOf: int -> int, today: int)
    requires CoupleFromDoc(id, d) == Some(c) && c.lastPhotoDate == c.lastStreakUpdate
    requires c.lastStreakUpdate.Some? && dayOf(c.lastStreakUpdate.value) < today - 1
    ensures !IsStreakActive(c, dayOf, today)
    ensures NextStreak(d, dayOf, today) == c.streakCount + 1
  {
    assert IntOrZero(d, StreakCount) == c.streakCount;
    assert TimeField(d, LastStreakUpdate) == c.lastStreakUpdate;
  }

  /** The evidently intended rule: the streak is kept on the same day, grows
      by one on the next day, and restarts at 1 after a longer gap. */
  function NextStreakResetting(d: Doc, dayOf: int -> int, today: int): int {
    var current := IntOrZero(d, StreakCount);
    var last := TimeField(d, LastStreakUpdate);
    if last.None? then 1
    else if dayOf(last.value) == today then current
    else if dayOf(last.value) == today - 1 then current + 1
    else 1
  }

  /** With the resetting rule an upload continues the streak exactly when the
      streak is still active, and restarts it at 1 otherwise. */
  lemma {:induction false} ResettingStreakFollowsActivity(id: Option<string>, d: Doc, c: Couple,
                                                          dayOf: int -> int, today: int)
    requires CoupleFromDoc(id, d) == Some(c) && c.lastPhotoDate == c.lastStreakUpdate
    ensures !IsStreakActive(c, dayOf, today) ==> NextStreakResetting(d, dayOf, today) == 1
    ensures IsStreakActive(c, dayOf, today) ==>
      NextStreakResetting(d, dayOf, today) == c.streakCount + (if dayOf(c.lastPhotoDate.value) == today then 0 else 1)
  {
    assert IntOrZero(d, StreakCount) == c.streakCount;
    assert TimeField(d, LastStreakUpdate) == c.lastStreakUpdate;
  }

  // ---------------------------------------------------------------------
  // Blob paths

  /** Where the full image of photo `photoID` is stored. */
  function ImagePath(coupleID: string, photoID: string): string {
    "photos/" + coupleID + "/" + photoID + ".jpg"
  }

  /** Where its thumbnail is stored. */
  function ThumbnailPath(coupleID: string, photoID: string): string {
    "photos/" + coupleID + "/thumbnails/" + photoID + "_thumb.jpg"
  }

  /** A photo's image and thumbnail never share a path, and within one couple
      different photos never share an image path. */
  lemma {:induction false} BlobPathsDistinct(coupleID: string, photoID: string, otherID: string)
    ensures ImagePath(coupleID, photoID) != ThumbnailPath(coupleID, photoID)
    ensures ImagePath(coupleID, photoID) == ImagePath(coupleID, otherID) ==> photoID == otherID
  {
    assert |ThumbnailPath(coupleID, photoID)| == |ImagePath(coupleID, photoID)| + 17;
    if ImagePath(coupleID, photoID) == ImagePath(coupleID, otherID) {
      var start := |"photos/" + coupleID + "/"|;
      var p := ImagePath(coupleID, photoID);
      assert |photoID| == |otherID|;
      assert p[start..start + |photoID|] == photoID;
      assert ImagePath(coupleID, otherID)[start..start + |otherID|] == otherID;
    }
  }

  // ---------------------------------------------------------------------
  // The live feed

  /** `compactMap { try? doc.data(as: Photo.self) }`: the documents that
      decode, in snapshot order, each carrying its document id. */
  function DecodeSnapshot(docs: seq<(string, Doc)>): (r: seq<Photo>)
    ensures |r| <= |docs|
    ensures forall i :: 0 <= i < |r| ==> r[i].id.Some?
  {
    if docs == [] then []
    else
      var p := PhotoFromDoc(Some(docs[0].0), docs[0].1);
      (if p.Some? then [p.value] else []) + DecodeSnapshot(docs[1..])
  }

  /** Decoding a snapshot decodes each document on its own: the decoded
      photos of two concatenated snapshots are those of each, in order. */
  lemma {:induction false} DecodeSnapshotAppend(a: seq<(string, Doc)>, b: seq<(string, Doc)>)
    ensures DecodeSnapshot(a + b) == DecodeSnapshot(a) + DecodeSnapshot(b)
  {
    if a == [] {
      assert a + b == b;
    } else {
      assert (a + b)[0] == a[0];
      assert (a + b)[1..] == a[1..] + b;
      DecodeSnapshotAppend(a[1..], b);
    }
  }

  /** The photo a single document contributes to the feed: itself if it
      decodes, nothing if it does not. */
  function Decoded(id: string, d: Doc): (r: seq<Photo>)
    ensures |r| <= 1
  {
    var p := PhotoFromDoc(Some(id), d);
    if p.Some? then [p.value] else []
  }

  /** Every document of a snapshot is kept exactly when it decodes, in its
      place; the documents around it are decoded independently. */
  lemma {:induction false} DecodeSnapshotKeepsDecodable(a: seq<(string, Doc)>, id: string, d: Doc, b: seq<(string, Doc)>)
    ensures DecodeSnapshot(a + [(id, d)] + b) == DecodeSnapshot(a) + Decoded(id, d) + DecodeSnapshot(b)
  {
    DecodeSnapshotAppend(a + [(id, d)], b);
    DecodeSnapshotAppend(a, [(id, d)]);
    DecodeSingle(id, d);
  }

  /** A snapshot of one document decodes to what that document decodes to. */
  lemma DecodeSingle(id: string, d: Doc)
    ensures DecodeSnapshot([(id, d)]) == Decoded(id, d)
  {
    assert [(id, d)][1..] == [];
  }

  /** The documents a list of photos is stored as, keyed by their ids. */
  function StoredPhotos(ps: seq<Photo>): (r: seq<(string, Doc)>)
    requires forall i :: 0 <= i < |ps| ==> ps[i].id.Some?
    ensures |r| == |ps|
  {
    if ps == [] then [] else [(ps[0].id.value, PhotoDictionary(ps[0]))] + StoredPhotos(ps[1..])
  }

  /** A snapshot of stored photos decodes to exactly those photos, in order. */
  lemma {:induction false} SnapshotRoundTrip(ps: seq<Photo>)
    requires forall i :: 0 <= i < |ps| ==> ps[i].id.Some?
    ensures DecodeSnapshot(StoredPhotos(ps)) == ps
  {
    if ps != [] {
      var docs := StoredPhotos(ps);
      PhotoRoundTrip(ps[0]);
      assert docs[1..] == StoredPhotos(ps[1..]);
      SnapshotRoundTrip(ps[1..]);
    }
  }

  /** Setting the reaction field of a photo document sets the reaction of the
      photo it decodes to. */
  lemma {:induction false} ReactedPhotoDecodes(id: Option<string>, d: Doc, p: Photo, reaction: PhotoReaction)
    requires PhotoFromDoc(id, d) == Some(p)
    ensures PhotoFromDoc(id, d[Reaction := VStr(reaction.RawValue())]) == Some(p.(reaction := Some(reaction)))
  {
    var d' := d[Reaction := VStr(reaction.RawValue())];
    ReactionRoundTrip(reaction);
    assert DecodeOptReaction(d') == Some(Some(reaction));
    assert StrField(d', SenderID) == StrField(d, SenderID) && StrField(d', CoupleID) == StrField(d, CoupleID);
    assert StrField(d', ImageURL) == StrField(d, ImageURL) && TimeField(d', CreatedAt) == TimeField(d, CreatedAt);
    assert DecodeOptStr(d', ThumbnailURL) == DecodeOptStr(d, ThumbnailURL);
    assert DecodeOptStr(d', Caption) == DecodeOptStr(d, Caption);
    assert DecodeOptStr(d', SyncMomentPairID) == DecodeOptStr(d, SyncMomentPairID);
    assert DecodeOptTime(d', ViewedAt) == DecodeOptTime(d, ViewedAt);
  }

  /** Setting the viewed instant of a photo document makes the photo it
      decodes to viewed at that instant, replacing any earlier one. */
  lemma {:induction false} ViewedPhotoDecodes(id: Option<string>, d: Doc, p: Photo, now: int)
    requires PhotoFromDoc(id, d) == Some(p)
    ensures PhotoFromDoc(id, d[ViewedAt := VTime(now)]) == Some(p.(viewedAt := Some(now)))
    ensures IsViewed(p.(viewedAt := Some(now)))
  {
    var d' := d[ViewedAt := VTime(now)];
    assert DecodeOptReaction(d') == DecodeOptReaction(d);
    assert StrField(d', SenderID) == StrField(d, SenderID) && StrField(d', CoupleID) == StrField(d, CoupleID);
    assert StrField(d', ImageURL) == StrField(d, ImageURL) && TimeField(d', CreatedAt) == TimeField(d, CreatedAt);
    assert DecodeOptStr(d', ThumbnailURL) == DecodeOptStr(d, ThumbnailURL);
    assert DecodeOptStr(d', Caption) == DecodeOptStr(d, Caption);
    assert DecodeOptStr(d', SyncMomentPairID) == DecodeOptStr(d, SyncMomentPairID);
    assert DecodeOptTime(d', ViewedAt) == Some(Some(now));
  }

  // ---------------------------------------------------------------------
  // The service

  class PhotoService {
    var photos: seq<Photo>
    var isUploading: bool
    /** The couple whose photos the feed listener watches, if any. */
    var listeningTo: Option<string>
    const db: Cloud

    constructor (db: Cloud)
      ensures this.db == db && photos == [] && !isUploading && listeningTo.None?
    {
      this.db := db;
      photos, isUploading, listeningTo := [], false, None;
    }

    /** `startListening(for:)`: replaces any earlier listener; the feed keeps
        its photos until the first snapshot arrives. */
    method StartListening(coupleID: string)
      modifies this
      ensures listeningTo == Some(coupleID) && photos == old(photos) && isUploading == old(isUploading)
    {
      listeningTo := Some(coupleID);
    }

    /** A snapshot reaching the feed listener: the documents that decode
        become the feed; a snapshot error leaves the feed as it was. */
    method PhotosSnapshotDelivered(snapshot: Option<seq<(string, Doc)>>)
      modifies this
      ensures listeningTo == old(listeningTo) && isUploading == old(isUploading)
      ensures photos == if old(listeningTo).Some? && snapshot.Some? then DecodeSnapshot(snapshot.value) else old(photos)
    {
      if listeningTo.Some? && snapshot.Some? {
        photos := DecodeSnapshot(snapshot.value);
      }
    }

    /** `stopListening`: no listener and an empty feed. */
    method StopListening()
      modifies this
      ensures listeningTo.None? && photos == [] && isUploading == old(isUploading)
    {
      listeningTo := None;
      photos := [];
    }

    /** `uploadPhoto`: needs a signed-in user who belongs to a couple; stores
        the image and its thumbnail, writes the photo document under a fresh
        id, and advances the couple's counters when the couple document
        exists. The blob store's download URLs are parameters. */
    method UploadPhoto(currentUser: Option<Users.User>, photoID: string, imageURL: string, thumbnailURL: string,
                       caption: Option<string>, isSyncMoment: bool, now: int, dayOf: int -> int, today: int)
      returns (r: Result<Photo, Failure>)
      modifies this, db`blobs, db`photos, db`couples
      ensures photos == old(photos) && listeningTo == old(listeningTo)
      ensures !(currentUser.Some? && currentUser.value.id.Some? && currentUser.value.coupleID.Some?) ==>
        r == Err(Rejected(NotAuthenticated)) && isUploading == old(isUploading)
        && db.blobs == old(db.blobs) && db.photos == old(db.photos) && db.couples == old(db.couples)
      ensures currentUser.Some? && currentUser.value.id.Some? && currentUser.value.coupleID.Some? ==>
        var coupleID := currentUser.value.coupleID.value;
        && r.Ok? && !isUploading
        && r.value == Photo(Some(photoID), currentUser.value.id.value, coupleID, imageURL, Some(thumbnailURL),
                            caption, None, None, isSyncMoment, None, now)
        && db.blobs == old(db.blobs) + {ImagePath(coupleID, photoID), ThumbnailPath(coupleID, photoID)}
        && db.photos == old(db.photos)[photoID := PhotoDictionary(r.value)]
        && db.couples == if coupleID in old(db.couples)
                         then old(db.couples)[coupleID := StatsUpdate(old(db.couples)[coupleID], now, dayOf, today)]
                         else old(db.couples)
    {
      if !(currentUser.Some? && currentUser.value.id.Some? && currentUser.value.coupleID.Some?) {
        return Err(Rejected(NotAuthenticated));
      }
      var userID, coupleID := currentUser.value.id.value, currentUser.value.coupleID.value;
      isUploading := true;
      db.blobs := db.blobs + {ImagePath(coupleID, photoID), ThumbnailPath(coupleID, photoID)};
      var photo := Photo(Some(photoID), userID, coupleID, imageURL, Some(thumbnailURL), caption,
                         None, None, isSyncMoment, None, now);
      db.photos := db.photos[photoID := PhotoDictionary(photo)];
      db.couples := if coupleID in db.couples
                    then db.couples[coupleID := StatsUpdate(db.couples[coupleID], now, dayOf, today)]
                    else db.couples;
      isUploading := false;
      r := Ok(photo);
    }

    /** `reactToPhoto`: updates the stored reaction; the update fails on a
        missing document. */
    method ReactToPhoto(photoID: string, reaction: PhotoReaction) returns (r: Outcome<Failure>)
      modifies db`photos
      ensures photoID !in old(db.photos) ==> r == Fail(StoreFailed(NotFound(photoID))) && db.photos == old(db.photos)
      ensures photoID in old(db.photos) ==>
        r == Pass && db.photos == old(db.photos)[photoID := old(db.photos)[photoID][Reaction := VStr(reaction.RawValue())]]
    {
      if photoID !in db.photos {
        return Fail(StoreFailed(NotFound(photoID)));
      }
      db.photos := db.photos[photoID := db.photos[photoID][Reaction := VStr(reaction.RawValue())]];
      r := Pass;
    }

    /** `markAsViewed`: stamps the stored viewed instant with `now`; the
        update fails on a missing document. */
    method MarkAsViewed(photoID: string, now: int) returns (r: Outcome<Failure>)
      modifies db`photos
      ensures photoID !in old(db.photos) ==> r == Fail(StoreFailed(NotFound(photoID))) && db.photos == old(db.photos)
      ensures photoID in old(db.photos) ==>
        r == Pass && db.photos == old(db.photos)[photoID := old(db.photos)[photoID][ViewedAt := VTime(now)]]
    {
      if photoID !in db.photos {
        return Fail(StoreFailed(NotFound(photoID)));
      }
      db.photos := db.photos[photoID := db.photos[photoID][ViewedAt := VTime(now)]];
      r := Pass;
    }

    /** `deletePhoto`: nothing for a photo without an id; otherwise the image
        is deleted first and its failure aborts the call, the thumbnail's
        failure is ignored, and the document is deleted last. */
    method DeletePhoto(photo: Photo) returns (r: Outcome<Failure>)
      modifies db`blobs, db`photos
      ensures photo.id.None? ==> r == Pass && db.blobs == old(db.blobs) && db.photos == old(db.photos)
      ensures photo.id.Some? && ImagePath(photo.coupleID, photo.id.value) !in old(db.blobs) ==>
        r == Fail(StoreFailed(NotFound(ImagePath(photo.coupleID, photo.id.value))))
        && db.blobs == old(db.blobs) && db.photos == old(db.photos)
      ensures photo.id.Some? && ImagePath(photo.coupleID, photo.id.value) in old(db.blobs) ==>
        && r == Pass
        && db.blobs == old(db.blobs) - {ImagePath(photo.coupleID, photo.id.value), ThumbnailPath(photo.coupleID, photo.id.value)}
        && db.photos == old(db.photos) - {photo.id.value}
    {
      if photo.id.None? {
        return Pass;
      }
      var photoID := photo.id.value;
      var image := ImagePath(photo.coupleID, photoID);
      if image !in db.blobs {
        return Fail(StoreFailed(NotFound(image)));
      }
      db.blobs := db.blobs - {image};
      var thumbnail := ThumbnailPath(photo.coupleID, photoID);
      if thumbnail in db.blobs {
        db.blobs := db.blobs - {thumbnail};
      }
      db.photos := db.photos - {photoID};
      r := Pass;
    }
  }
}
