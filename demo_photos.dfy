/** The demo photo service (Couply/Couply/Couply/Core/Services/PhotoService.swift):
    an in-memory feed seeded with five photos and edited in place. The clock,
    the fresh photo id and the picture URLs are parameters. */
module DemoPhotos {
  import opened Store
  import opened Seqs
  import opened Photos
  import Users

  /** `loadDemoPhotos`: five photos of the demo couple, taken one hour, two
      hours, one day, two days and three days before `now`. */
  function DemoFeed(now: int): seq<Photo> {
    [ Photo(Some("photo-1"), "demo-partner-456", "demo-couple-789", "https://picsum.photos/400/500?random=1",
            Some("https://picsum.photos/200/250?random=1"), Some("Missing you! "), Some(Heart), None,
            false, None, now - 3600),
      Photo(Some("photo-2"), "demo-user-123", "demo-couple-789", "https://picsum.photos/400/500?random=2",
            Some("https://picsum.photos/200/250?random=2"), Some("Good morning!"), None, None,
            false, None, now - 7200),
      Photo(Some("photo-3"), "demo-partner-456", "demo-couple-789", "https://picsum.photos/400/500?random=3",
            Some("https://picsum.photos/200/250?random=3"), None, None, None,
            true, None, now - 86400),
      Photo(Some("photo-4"), "demo-user-123", "demo-couple-789", "https://picsum.photos/400/500?random=4",
            Some("https://picsum.photos/200/250?random=4"), Some("Date night! "), Some(Fire), None,
            false, None, now - 172800),
      Photo(Some("photo-5"), "demo-partner-456", "demo-couple-789", "https://picsum.photos/400/500?random=5",
            Some("https://picsum.photos/200/250?random=5"), None, Some(Love), None,
            false, None, now - 259200) ]
  }

  /** The feed shows photos newest first. */
  predicate NewestFirst(photos: seq<Photo>) {
    forall i, j :: 0 <= i < j < |photos| ==> photos[i].createdAt > photos[j].createdAt
  }

  /** The demo feed has five photos, newest first, with distinct ids, all of
      one couple and all older than `now`. */
  lemma DemoFeedShape(now: int)
    ensures |DemoFeed(now)| == 5 && NewestFirst(DemoFeed(now))
    ensures forall i, j :: 0 <= i < j < 5 ==> DemoFeed(now)[i].id != DemoFeed(now)[j].id
    ensures forall i :: 0 <= i < 5 ==> DemoFeed(now)[i].coupleID == "demo-couple-789"
    ensures forall i :: 0 <= i < 5 ==> DemoFeed(now)[i].createdAt < now
  {
  }

  /** The position of the first photo whose id is `photoID`
      (`firstIndex(where:)`). */
  function FirstIndexWithID(photos: seq<Photo>, photoID: string): (r: Option<nat>)
    ensures r.Some? ==> r.value < |photos| && photos[r.value].id == Some(photoID)
                        && forall j :: 0 <= j < r.value ==> photos[j].id != Some(photoID)
    ensures r.None? ==> forall j :: 0 <= j < |photos| ==> photos[j].id != Some(photoID)
  {
    if photos == [] then None
    else if photos[0].id == Some(photoID) then Some(0)
    else
      var rest := FirstIndexWithID(photos[1..], photoID);
      if rest.Some? then Some(rest.value + 1) else None
  }

  /** The feed with the first photo of id `photoID` replaced by `edit` of it;
      the feed unchanged when no photo has that id. */
  function EditFirst(photos: seq<Photo>, photoID: string, edit: Photo -> Photo): (r: seq<Photo>)
    ensures |r| == |photos|
    ensures var i := FirstIndexWithID(photos, photoID);
      forall j :: 0 <= j < |photos| ==> r[j] == if i == Some(j) then edit(photos[j]) else photos[j]
  {
    var i := FirstIndexWithID(photos, photoID);
    if i.Some? then photos[i.value := edit(photos[i.value])] else photos
  }

  /** Editing the first match leaves every photo of another id in place, and
      changes nothing when there is no match. */
  lemma EditFirstTouchesOneMatch(photos: seq<Photo>, photoID: string, edit: Photo -> Photo)
    ensures forall j :: 0 <= j < |photos| && photos[j].id != Some(photoID) ==>
      EditFirst(photos, photoID, edit)[j] == photos[j]
    ensures (forall j :: 0 <= j < |photos| ==> photos[j].id != Some(photoID)) ==>
      EditFirst(photos, photoID, edit) == photos
  {
  }

  /** The user id a demo upload is stamped with: the signed-in user's, or the
      empty string. */
  function IdOrEmpty(currentUser: Option<Users.User>): (r: string)
    ensures currentUser.Some? && currentUser.value.id.Some? ==> r == currentUser.value.id.value
    ensures !(currentUser.Some? && currentUser.value.id.Some?) ==> r == ""
  {
    if currentUser.Some? && currentUser.value.id.Some? then currentUser.value.id.value else ""
  }

  function CoupleIdOrEmpty(currentUser: Option<Users.User>): (r: string)
    ensures currentUser.Some? && currentUser.value.coupleID.Some? ==> r == currentUser.value.coupleID.value
    ensures !(currentUser.Some? && currentUser.value.coupleID.Some?) ==> r == ""
  {
    if currentUser.Some? && currentUser.value.coupleID.Some? then currentUser.value.coupleID.value else ""
  }

  /** Whether `removeAll { $0.id == photo.id }` keeps `q`; both ids are
      optional, so a photo without an id removes every photo without one. */
  predicate KeepsAfterDelete(photo: Photo, q: Photo) {
    q.id != photo.id
  }

  /** Deleting removes every photo that shares the deleted photo's id, keeps
      every other photo as often as it occurred, and keeps the feed order. */
  lemma DeleteRemovesExactlyMatches(photos: seq<Photo>, photo: Photo, q: Photo)
    ensures var r := Where(photos, (p: Photo) => KeepsAfterDelete(photo, p));
      && IsSubsequence(r, photos)
      && multiset(r)[q] == (if q.id == photo.id then 0 else multiset(photos)[q])
      && forall p :: p in r ==> p.id != photo.id
  {
    var keep := (p: Photo) => KeepsAfterDelete(photo, p);
    WhereIsSubsequence(photos, keep);
    WhereCount(photos, keep, q);
  }

  /** Deleting twice is deleting once. */
  lemma DeleteIdempotent(photos: seq<Photo>, photo: Photo)
    ensures var keep := (p: Photo) => KeepsAfterDelete(photo, p);
      Where(Where(photos, keep), keep) == Where(photos, keep)
  {
    WhereIdempotent(photos, (p: Photo) => KeepsAfterDelete(photo, p));
  }

  class DemoPhotoService {
    var photos: seq<Photo>
    var isUploading: bool

    /** The service starts with the demo feed loaded. */
    constructor (now: int)
      ensures photos == DemoFeed(now) && !isUploading
    {
      photos := DemoFeed(now);
      isUploading := false;
    }

    /** `uploadPhoto`: the new photo goes in front of the feed; every earlier
        photo moves back one place unchanged. */
    method UploadPhoto(currentUser: Option<Users.User>, photoID: string, imageURL: string, thumbnailURL: string,
                       caption: Option<string>, isSyncMoment: bool, now: int)
      returns (photo: Photo)
      modifies this
      ensures photo == Photo(Some(photoID), IdOrEmpty(currentUser), CoupleIdOrEmpty(currentUser), imageURL,
                             Some(thumbnailURL), caption, None, None, isSyncMoment, None, now)
      ensures photos == [photo] + old(photos) && !isUploading
    {
      isUploading := true;
      photo := Photo(Some(photoID), IdOrEmpty(currentUser), CoupleIdOrEmpty(currentUser), imageURL,
                     Some(thumbnailURL), caption, None, None, isSyncMoment, None, now);
      photos := [photo] + photos;
      isUploading := false;
    }

    /** `reactToPhoto`: sets the reaction of the first photo with that id. */
    method ReactToPhoto(photoID: string, reaction: PhotoReaction)
      modifies this
      ensures photos == EditFirst(old(photos), photoID, (p: Photo) => p.(reaction := Some(reaction)))
      ensures isUploading == old(isUploading)
    {
      var i := FirstIndexWithID(photos, photoID);
      if i.Some? {
        photos := photos[i.value := photos[i.value].(reaction := Some(reaction))];
      }
    }

    /** `markAsViewed`: stamps the first photo with that id as viewed at
        `now`, replacing any earlier instant. */
    method MarkAsViewed(photoID: string, now: int)
      modifies this
      ensures photos == EditFirst(old(photos), photoID, (p: Photo) => p.(viewedAt := Some(now)))
      ensures isUploading == old(isUploading)
    {
      var i := FirstIndexWithID(photos, photoID);
      if i.Some? {
        photos := photos[i.value := photos[i.value].(viewedAt := Some(now))];
      }
    }

    /** `deletePhoto`: removes every photo with the same id. */
    method DeletePhoto(photo: Photo)
      modifies this
      ensures photos == Where(old(photos), (p: Photo) => KeepsAfterDelete(photo, p))
      ensures isUploading == old(isUploading)
    {
      photos := Where(photos, (p: Photo) => KeepsAfterDelete(photo, p));
    }
  }
}
