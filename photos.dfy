/** The Photo record, reactions, feed filters and sync moments
    (Couply/Core/Models/Photo.swift), with the feed filter both photo services
    apply to their in-memory list. */
module Photos {
  import opened Store
  import opened Seqs

  datatype PhotoReaction = Heart | Fire | Laugh | Love | Kiss | Hug {
    function RawValue(): string {
      match this
      case Heart => "heart"
      case Fire => "fire"
      case Laugh => "laugh"
      case Love => "love"
      case Kiss => "kiss"
      case Hug => "hug"
    }
  }

  /** `PhotoReaction(rawValue:)`. */
  function ReactionFromRaw(raw: string): (r: Option<PhotoReaction>)
    ensures r.Some? ==> r.value.RawValue() == raw
  {
    if raw == "heart" then Some(Heart)
    else if raw == "fire" then Some(Fire)
    else if raw == "laugh" then Some(Laugh)
    else if raw == "love" then Some(Love)
    else if raw == "kiss" then Some(Kiss)
    else if raw == "hug" then Some(Hug)
    else None
  }

  lemma ReactionRoundTrip(r: PhotoReaction)
    ensures ReactionFromRaw(r.RawValue()) == Some(r)
  {
  }

  lemma ReactionRawInjective(r1: PhotoReaction, r2: PhotoReaction)
    ensures r1.RawValue() == r2.RawValue() ==> r1 == r2
  {
    ReactionRoundTrip(r1);
    ReactionRoundTrip(r2);
  }

  datatype Photo = Photo(
    id: Option<string>,
    senderID: string,
    coupleID: string,
    imageURL: string,
    thumbnailURL: Option<string>,
    caption: Option<string>,
    reaction: Option<PhotoReaction>,
    viewedAt: Option<int>,
    isSyncMoment: bool,
    syncMomentPairID: Option<string>,
    createdAt: int)

  predicate IsViewed(p: Photo) {
    p.viewedAt.Some?
  }

  predicate IsSentBy(p: Photo, userID: string) {
    p.senderID == userID
  }

  function OptReaction(r: Option<PhotoReaction>): Option<Value> {
    if r.Some? then Some(VStr(r.value.RawValue())) else None
  }

  const PhotoRequiredKeys: set<Field> := {SenderID, CoupleID, ImageURL, IsSyncMoment, CreatedAt}
  const PhotoOptionalKeys: set<Field> := {ThumbnailURL, Caption, Reaction, ViewedAt, SyncMomentPairID}

  /** The five fields every photo document carries, with the photo's values. */
  predicate RequiredStored(p: Photo, d: Doc) {
    && SenderID in d && d[SenderID] == VStr(p.senderID)
    && CoupleID in d && d[CoupleID] == VStr(p.coupleID)
    && ImageURL in d && d[ImageURL] == VStr(p.imageURL)
    && IsSyncMoment in d && d[IsSyncMoment] == VBool(p.isSyncMoment)
    && CreatedAt in d && d[CreatedAt] == VTime(p.createdAt)
  }

  function RequiredFields(p: Photo): (d: Doc)
    ensures RequiredStored(p, d) && d.Keys == PhotoRequiredKeys
  {
    map[SenderID := VStr(p.senderID), CoupleID := VStr(p.coupleID),
        ImageURL := VStr(p.imageURL), IsSyncMoment := VBool(p.isSyncMoment),
        CreatedAt := VTime(p.createdAt)]
  }

  /** The document written for a photo: five fields always, each optional
      field exactly when it is set, the reaction as its raw string. */
  function PhotoDictionary(p: Photo): (d: Doc)
    ensures RequiredStored(p, d)
    ensures ThumbnailURL in d <==> p.thumbnailURL.Some?
    ensures p.thumbnailURL.Some? ==> d[ThumbnailURL] == VStr(p.thumbnailURL.value)
    ensures Caption in d <==> p.caption.Some?
    ensures p.caption.Some? ==> d[Caption] == VStr(p.caption.value)
    ensures Reaction in d <==> p.reaction.Some?
    ensures p.reaction.Some? ==> d[Reaction] == VStr(p.reaction.value.RawValue())
    ensures ViewedAt in d <==> p.viewedAt.Some?
    ensures p.viewedAt.Some? ==> d[ViewedAt] == VTime(p.viewedAt.value)
    ensures SyncMomentPairID in d <==> p.syncMomentPairID.Some?
    ensures p.syncMomentPairID.Some? ==> d[SyncMomentPairID] == VStr(p.syncMomentPairID.value)
  {
    var required := RequiredFields(p);
    var d1 := PutIfSome(required, ThumbnailURL, OptStr(p.thumbnailURL));
    var d2 := PutIfSome(d1, Caption, OptStr(p.caption));
    var d3 := PutIfSome(d2, Reaction, OptReaction(p.reaction));
    var d4 := PutIfSome(d3, ViewedAt, OptTime(p.viewedAt));
    PutIfSome(d4, SyncMomentPairID, OptStr(p.syncMomentPairID))
  }

  /** The photo document holds no field besides the photo's own. */
  lemma PhotoDictionaryKeys(p: Photo)
    ensures PhotoRequiredKeys <= PhotoDictionary(p).Keys <= PhotoRequiredKeys + PhotoOptionalKeys
  {
  }

  function DecodeOptReaction(d: Doc): (r: Option<Option<PhotoReaction>>)
    ensures Reaction !in d ==> r == Some(None)
  {
    if Reaction !in d || d[Reaction].VNull? then Some(None)
    else if d[Reaction].VStr? then
      (var x := ReactionFromRaw(d[Reaction].s); if x.Some? then Some(x) else None)
    else None
  }

  /** Reading a photo document back (`doc.data(as: Photo.self)`): `None` when
      the document does not decode. */
  function PhotoFromDoc(id: Option<string>, d: Doc): (r: Option<Photo>)
    ensures r.Some? ==> r.value.id == id
  {
    var se, co, im := StrField(d, SenderID), StrField(d, CoupleID), StrField(d, ImageURL);
    var sy := if IsSyncMoment in d && d[IsSyncMoment].VBool? then Some(d[IsSyncMoment].b) else None;
    var ca := TimeField(d, CreatedAt);
    var th, cp, sp := DecodeOptStr(d, ThumbnailURL), DecodeOptStr(d, Caption), DecodeOptStr(d, SyncMomentPairID);
    var re, va := DecodeOptReaction(d), DecodeOptTime(d, ViewedAt);
    if se.Some? && co.Some? && im.Some? && sy.Some? && ca.Some? && th.Some? && cp.Some? && sp.Some?
       && re.Some? && va.Some?
    then Some(Photo(id, se.value, co.value, im.value, th.value, cp.value, re.value, va.value,
                    sy.value, sp.value, ca.value))
    else None
  }

  lemma PhotoRoundTrip(p: Photo)
    ensures PhotoFromDoc(p.id, PhotoDictionary(p)) == Some(p)
  {
    var d := PhotoDictionary(p);
    RequiredPhotoFields(p, d);
    ThumbnailStored(p, d);
    CaptionStored(p, d);
    PairIDStored(p, d);
    ViewedAtStored(p, d);
    DecodeReactionOf(p, d);
  }

  lemma RequiredPhotoFields(p: Photo, d: Doc)
    requires d == PhotoDictionary(p)
    ensures StrField(d, SenderID) == Some(p.senderID) && StrField(d, CoupleID) == Some(p.coupleID)
    ensures StrField(d, ImageURL) == Some(p.imageURL) && TimeField(d, CreatedAt) == Some(p.createdAt)
    ensures IsSyncMoment in d && d[IsSyncMoment] == VBool(p.isSyncMoment)
  {
  }

  lemma ThumbnailStored(p: Photo, d: Doc)
    requires d == PhotoDictionary(p)
    ensures DecodeOptStr(d, ThumbnailURL) == Some(p.thumbnailURL)
  {
  }

  lemma CaptionStored(p: Photo, d: Doc)
    requires d == PhotoDictionary(p)
    ensures DecodeOptStr(d, Caption) == Some(p.caption)
  {
  }

  lemma PairIDStored(p: Photo, d: Doc)
    requires d == PhotoDictionary(p)
    ensures DecodeOptStr(d, SyncMomentPairID) == Some(p.syncMomentPairID)
  {
  }

  lemma ViewedAtStored(p: Photo, d: Doc)
    requires d == PhotoDictionary(p)
    ensures DecodeOptTime(d, ViewedAt) == Some(p.viewedAt)
  {
  }

  /** A photo is viewed exactly when its stored document carries a viewing
      time. */
  lemma ViewedIsStored(p: Photo)
    ensures IsViewed(p) <==> ViewedAt in PhotoDictionary(p)
  {
  }

  /** A photo is sent by `userID` exactly when its stored sender is
      `userID`. */
  lemma SentByIsStored(p: Photo, userID: string)
    ensures IsSentBy(p, userID) <==> PhotoDictionary(p)[SenderID] == VStr(userID)
  {
  }

  lemma DecodeReactionOf(p: Photo, d: Doc)
    requires d == PhotoDictionary(p)
    ensures DecodeOptReaction(d) == Some(p.reaction)
  {
    if p.reaction.Some? {
      ReactionRoundTrip(p.reaction.value);
    }
  }

  // ---------------------------------------------------------------------
  // Feed filters

  datatype PhotoFilter = All | Sent | Received | Favorites {
    function RawValue(): string {
      match this
      case All => "All"
      case Sent => "Sent"
      case Received => "Received"
      case Favorites => "Favorites"
    }
  }

  /** The photos of the feed that `filter` shows to `userID`, in feed order
      (`filteredPhotos(by:userID:)` of both photo services). */
  function FilteredPhotos(photos: seq<Photo>, filter: PhotoFilter, userID: string): seq<Photo> {
    match filter
    case All => photos
    case Sent => Where(photos, (p: Photo) => p.senderID == userID)
    case Received => Where(photos, (p: Photo) => p.senderID != userID)
    case Favorites => Where(photos, (p: Photo) => p.reaction.Some?)
  }

  /** Whether `filter` shows photo `p` to `userID`. */
  predicate Shows(filter: PhotoFilter, userID: string, p: Photo) {
    match filter
    case All => true
    case Sent => IsSentBy(p, userID)
    case Received => !IsSentBy(p, userID)
    case Favorites => p.reaction.Some?
  }

  /** Every filter keeps exactly the photos it shows, each as often as it
      occurs in the feed, and keeps them in feed order. */
  lemma FilteredPhotosSelects(photos: seq<Photo>, filter: PhotoFilter, userID: string, p: Photo)
    ensures IsSubsequence(FilteredPhotos(photos, filter, userID), photos)
    ensures multiset(FilteredPhotos(photos, filter, userID))[p]
         == if Shows(filter, userID, p) then multiset(photos)[p] else 0
  {
    match filter
    case All =>
      AllIsSubsequence(photos);
    case Sent =>
      var keep := (q: Photo) => q.senderID == userID;
      WhereIsSubsequence(photos, keep);
      WhereCount(photos, keep, p);
    case Received =>
      var keep := (q: Photo) => q.senderID != userID;
      WhereIsSubsequence(photos, keep);
      WhereCount(photos, keep, p);
    case Favorites =>
      var keep := (q: Photo) => q.reaction.Some?;
      WhereIsSubsequence(photos, keep);
      WhereCount(photos, keep, p);
  }

  lemma {:induction false} AllIsSubsequence<T>(s: seq<T>)
    ensures IsSubsequence(s, s)
  {
    if s != [] {
      AllIsSubsequence(s[1..]);
    }
  }

  /** Sent and Received split the feed: every photo is in exactly one of the
      two, and together they hold the whole feed. */
  lemma SentReceivedPartition(photos: seq<Photo>, userID: string)
    ensures multiset(FilteredPhotos(photos, Sent, userID)) + multiset(FilteredPhotos(photos, Received, userID))
         == multiset(photos)
    ensures |FilteredPhotos(photos, Sent, userID)| + |FilteredPhotos(photos, Received, userID)| == |photos|
  {
    WherePartition(photos, (p: Photo) => p.senderID == userID, (p: Photo) => p.senderID != userID);
  }

  /** Favorites are exactly the photos that carry a reaction, whoever sent
      them. */
  lemma FavoritesAreReacted(photos: seq<Photo>, userID: string)
    ensures forall p :: p in FilteredPhotos(photos, Favorites, userID) <==> p in photos && p.reaction.Some?
  {
    forall p ensures p in FilteredPhotos(photos, Favorites, userID) <==> p in photos && p.reaction.Some? {
      FilteredPhotosSelects(photos, Favorites, userID, p);
    }
  }

  // ---------------------------------------------------------------------
  // Sync moments

  datatype SyncMoment = SyncMoment(
    id: Option<string>,
    coupleID: string,
    initiatorID: string,
    user1PhotoID: Option<string>,
    user2PhotoID: Option<string>,
    user1CompletedAt: Option<int>,
    user2CompletedAt: Option<int>,
    expiresAt: int,
    createdAt: int)

  predicate IsComplete(m: SyncMoment) {
    m.user1PhotoID.Some? && m.user2PhotoID.Some?
  }

  predicate SyncMomentExpired(m: SyncMoment, now: int) {
    now > m.expiresAt
  }

  const SyncMomentWindow: int := 5 * 60

  /** `SyncMoment.create`: no photo yet, open for five minutes from `now`. */
  function CreateSyncMoment(coupleID: string, initiatorID: string, now: int): (m: SyncMoment)
    ensures m.coupleID == coupleID && m.initiatorID == initiatorID && m.createdAt == now
    ensures !IsComplete(m) && m.user1CompletedAt.None? && m.user2CompletedAt.None?
    ensures forall t :: SyncMomentExpired(m, t) <==> t > now + 300
  {
    SyncMoment(None, coupleID, initiatorID, None, None, None, None, now + SyncMomentWindow, now)
  }
}
