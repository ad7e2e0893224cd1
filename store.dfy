/** Shared vocabulary of the backend model: optional values, results, the
    documents of the document store (a map from field name to value) and the
    store itself, whose collections are maps from document id to document. */
module Store {

  datatype Option<+T> = None | Some(value: T)

  datatype Result<+T, +E> = Ok(value: T) | Err(error: E)

  /** A call that either succeeds without a value or fails with an error. */
  datatype Outcome<+E> = Pass | Fail(error: E)

  /** The value of one document field. Instants (`Timestamp`) are whole
      seconds; `VNull` is an explicitly stored null. */
  datatype Value = VStr(s: string) | VInt(n: int) | VBool(b: bool) | VTime(t: int) | VNull

  /** The field names the app writes and reads. Each stands for the string
      literal `Name()` used as the key in the source's dictionaries. */
  datatype Field =
    | Code | CreatorID | UsedBy | UsedAt | ExpiresAt | CreatedAt
    | User1ID | User2ID | InviteCodeKey | StreakCount | LongestStreak | LastPhotoDate
    | LastStreakUpdate | TotalPhotosExchanged | AnniversaryDate
    | PhoneNumber | DisplayName | AvatarURL | PartnerID | CoupleID | FcmToken | CurrentMood | LastActive
    | SenderID | ImageURL | ThumbnailURL | Caption | Reaction | ViewedAt | IsSyncMoment | SyncMomentPairID
  {
    function Name(): string {
      match this
      case Code => "code"
      case CreatorID => "creatorID"
      case UsedBy => "usedBy"
      case UsedAt => "usedAt"
      case ExpiresAt => "expiresAt"
      case CreatedAt => "createdAt"
      case User1ID => "user1ID"
      case User2ID => "user2ID"
      case InviteCodeKey => "inviteCode"
      case StreakCount => "streakCount"
      case LongestStreak => "longestStreak"
      case LastPhotoDate => "lastPhotoDate"
      case LastStreakUpdate => "lastStreakUpdate"
      case TotalPhotosExchanged => "totalPhotosExchanged"
      case AnniversaryDate => "anniversaryDate"
      case PhoneNumber => "phoneNumber"
      case DisplayName => "displayName"
      case AvatarURL => "avatarURL"
      case PartnerID => "partnerID"
      case CoupleID => "coupleID"
      case FcmToken => "fcmToken"
      case CurrentMood => "currentMood"
      case LastActive => "lastActive"
      case SenderID => "senderID"
      case ImageURL => "imageURL"
      case ThumbnailURL => "thumbnailURL"
      case Caption => "caption"
      case Reaction => "reaction"
      case ViewedAt => "viewedAt"
      case IsSyncMoment => "isSyncMoment"
      case SyncMomentPairID => "syncMomentPairID"
    }
  }

  type Doc = map<Field, Value>

  /** What the store reports when a write addresses something that is not
      there: `updateData` on a missing document, or deleting a missing blob. */
  datatype StoreError = NotFound(path: string)

  /** `data[key] as? String`: the field, when it is present and a string. */
  function StrField(d: Doc, key: Field): (r: Option<string>)
    ensures r.Some? <==> key in d && d[key].VStr?
    ensures r.Some? ==> d[key] == VStr(r.value)
  {
    if key in d && d[key].VStr? then Some(d[key].s) else None
  }

  /** `data[key] as? Int`. */
  function IntField(d: Doc, key: Field): (r: Option<int>)
    ensures r.Some? <==> key in d && d[key].VInt?
    ensures r.Some? ==> d[key] == VInt(r.value)
  {
    if key in d && d[key].VInt? then Some(d[key].n) else None
  }

  /** `data[key] as? Int ?? 0`: the field when it is an integer, 0 otherwise. */
  function IntOrZero(d: Doc, key: Field): (r: int)
    ensures key in d && d[key].VInt? ==> r == d[key].n
    ensures !(key in d && d[key].VInt?) ==> r == 0
  {
    if key in d && d[key].VInt? then d[key].n else 0
  }

  /** `(data[key] as? Timestamp)?.dateValue()`. */
  function TimeField(d: Doc, key: Field): (r: Option<int>)
    ensures r.Some? <==> key in d && d[key].VTime?
    ensures r.Some? ==> d[key] == VTime(r.value)
  {
    if key in d && d[key].VTime? then Some(d[key].t) else None
  }

  /** `if let v = v { dict[key] = v }`: the dictionary with the optional
      field added exactly when it is set. */
  function PutIfSome(d: Doc, key: Field, v: Option<Value>): (r: Doc)
    ensures v.Some? ==> r == d[key := v.value]
    ensures v.None? ==> r == d
  {
    if v.Some? then d[key := v.value] else d
  }

  function OptStr(s: Option<string>): Option<Value> {
    if s.Some? then Some(VStr(s.value)) else None
  }

  function OptTime(t: Option<int>): Option<Value> {
    if t.Some? then Some(VTime(t.value)) else None
  }

  /** Decoding an optional field the way a synthesised `Decodable` does it: a
      missing key or a stored null reads as nil, a string reads as that string,
      and any other value fails the whole decode (outer `None`). */
  function DecodeOptStr(d: Doc, key: Field): (r: Option<Option<string>>)
    ensures key !in d ==> r == Some(None)
    ensures key in d && d[key].VStr? ==> r == Some(Some(d[key].s))
  {
    if key !in d || d[key].VNull? then Some(None)
    else if d[key].VStr? then Some(Some(d[key].s))
    else None
  }

  function DecodeOptTime(d: Doc, key: Field): (r: Option<Option<int>>)
    ensures key !in d ==> r == Some(None)
    ensures key in d && d[key].VTime? ==> r == Some(Some(d[key].t))
  {
    if key !in d || d[key].VNull? then Some(None)
    else if d[key].VTime? then Some(Some(d[key].t))
    else None
  }

  /** The backend the services talk to: the document store's collections,
      each a map from document id to document, and the blob store, the set of
      paths that hold an object. */
  class Cloud {
    var invites: map<string, Doc>
    var couples: map<string, Doc>
    var users: map<string, Doc>
    var photos: map<string, Doc>
    var blobs: set<string>

    constructor ()
      ensures invites == map[] && couples == map[] && users == map[] && photos == map[]
      ensures blobs == {}
    {
      invites, couples, users, photos := map[], map[], map[], map[];
      blobs := {};
    }
  }
}
