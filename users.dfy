/** The User record, its document form and the Mood enumeration
    (Couply/Couply/Couply/Core/Models/User.swift). */
module Users {
  import opened Store

  datatype Mood = Great | Loved | Tired | Sad | Missing | Excited {
    function RawValue(): string {
      match this
      case Great => "great"
      case Loved => "loved"
      case Tired => "tired"
      case Sad => "sad"
      case Missing => "missing"
      case Excited => "excited"
    }
  }

  /** `Mood(rawValue:)`: the case whose raw value is `raw`, if any. */
  function MoodFromRaw(raw: string): (r: Option<Mood>)
    ensures r.Some? ==> r.value.RawValue() == raw
  {
    if raw == "great" then Some(Great)
    else if raw == "loved" then Some(Loved)
    else if raw == "tired" then Some(Tired)
    else if raw == "sad" then Some(Sad)
    else if raw == "missing" then Some(Missing)
    else if raw == "excited" then Some(Excited)
    else None
  }

  /** The six raw strings are distinct, so a mood survives being stored as its
      raw value and read back. */
  lemma MoodRoundTrip(m: Mood)
    ensures MoodFromRaw(m.RawValue()) == Some(m)
  {
  }

  lemma MoodRawInjective(m1: Mood, m2: Mood)
    ensures m1.RawValue() == m2.RawValue() ==> m1 == m2
  {
    MoodRoundTrip(m1);
    MoodRoundTrip(m2);
  }

  datatype User = User(
    id: Option<string>,
    phoneNumber: string,
    displayName: string,
    avatarURL: Option<string>,
    partnerID: Option<string>,
    coupleID: Option<string>,
    fcmToken: Option<string>,
    currentMood: Option<Mood>,
    lastActive: int,
    createdAt: int)

  predicate IsConnected(u: User) {
    u.coupleID.Some? && u.partnerID.Some?
  }

  /** `User.init` with every defaulted argument left at its default; both
      instants default to the clock reading `now`. */
  function NewUser(id: Option<string>, phoneNumber: string, displayName: string, now: int): (u: User)
    ensures u.id == id && u.phoneNumber == phoneNumber && u.displayName == displayName
    ensures u.avatarURL.None? && u.fcmToken.None? && u.currentMood.None?
    ensures u.lastActive == now && u.createdAt == now
    ensures !IsConnected(u) && u.partnerID.None? && u.coupleID.None?
  {
    User(id, phoneNumber, displayName, None, None, None, None, None, now, now)
  }

  function OptMood(m: Option<Mood>): Option<Value> {
    if m.Some? then Some(VStr(m.value.RawValue())) else None
  }

  const UserRequiredKeys: set<Field> := {PhoneNumber, DisplayName, LastActive, CreatedAt}
  const UserOptionalKeys: set<Field> := {AvatarURL, PartnerID, CoupleID, FcmToken, CurrentMood}

  /** The document written for a user: four fields always, each optional
      field exactly when it is set, the mood as its raw string. */
  function UserDictionary(u: User): (d: Doc)
    ensures PhoneNumber in d && d[PhoneNumber] == VStr(u.phoneNumber)
    ensures DisplayName in d && d[DisplayName] == VStr(u.displayName)
    ensures LastActive in d && d[LastActive] == VTime(u.lastActive)
    ensures CreatedAt in d && d[CreatedAt] == VTime(u.createdAt)
    ensures AvatarURL in d <==> u.avatarURL.Some?
    ensures u.avatarURL.Some? ==> d[AvatarURL] == VStr(u.avatarURL.value)
    ensures PartnerID in d <==> u.partnerID.Some?
    ensures u.partnerID.Some? ==> d[PartnerID] == VStr(u.partnerID.value)
    ensures CoupleID in d <==> u.coupleID.Some?
    ensures u.coupleID.Some? ==> d[CoupleID] == VStr(u.coupleID.value)
    ensures FcmToken in d <==> u.fcmToken.Some?
    ensures u.fcmToken.Some? ==> d[FcmToken] == VStr(u.fcmToken.value)
    ensures CurrentMood in d <==> u.currentMood.Some?
    ensures u.currentMood.Some? ==> d[CurrentMood] == VStr(u.currentMood.value.RawValue())
  {
    var required := map[PhoneNumber := VStr(u.phoneNumber), DisplayName := VStr(u.displayName),
                         LastActive := VTime(u.lastActive), CreatedAt := VTime(u.createdAt)];
    var d1 := PutIfSome(required, AvatarURL, OptStr(u.avatarURL));
    var d2 := PutIfSome(d1, PartnerID, OptStr(u.partnerID));
    var d3 := PutIfSome(d2, CoupleID, OptStr(u.coupleID));
    var d4 := PutIfSome(d3, FcmToken, OptStr(u.fcmToken));
    PutIfSome(d4, CurrentMood, OptMood(u.currentMood))
  }

  /** The user document holds no field besides the user's own. */
  lemma UserDictionaryKeys(u: User)
    ensures UserRequiredKeys <= UserDictionary(u).Keys <= UserRequiredKeys + UserOptionalKeys
  {
  }

  /** Decoding the stored mood: missing or null is nil, an unknown raw string
      or a non-string fails the decode. */
  function DecodeOptMood(d: Doc): (r: Option<Option<Mood>>)
    ensures CurrentMood !in d ==> r == Some(None)
  {
    if CurrentMood !in d || d[CurrentMood].VNull? then Some(None)
    else if d[CurrentMood].VStr? then
      (var m := MoodFromRaw(d[CurrentMood].s); if m.Some? then Some(m) else None)
    else None
  }

  /** Reading a user document back (its `Decodable` conformance). */
  function UserFromDoc(id: Option<string>, d: Doc): (r: Option<User>)
    ensures r.Some? ==> r.value.id == id
  {
    var pn, dn := StrField(d, PhoneNumber), StrField(d, DisplayName);
    var la, ca := TimeField(d, LastActive), TimeField(d, CreatedAt);
    var av, pa := DecodeOptStr(d, AvatarURL), DecodeOptStr(d, PartnerID);
    var co, fc := DecodeOptStr(d, CoupleID), DecodeOptStr(d, FcmToken);
    var mo := DecodeOptMood(d);
    if pn.Some? && dn.Some? && la.Some? && ca.Some? && av.Some? && pa.Some? && co.Some? && fc.Some? && mo.Some?
    then Some(User(id, pn.value, dn.value, av.value, pa.value, co.value, fc.value, mo.value, la.value, ca.value))
    else None
  }

  lemma UserRoundTrip(u: User)
    ensures UserFromDoc(u.id, UserDictionary(u)) == Some(u)
  {
    var d := UserDictionary(u);
    assert StrField(d, PhoneNumber) == Some(u.phoneNumber) && StrField(d, DisplayName) == Some(u.displayName);
    assert TimeField(d, LastActive) == Some(u.lastActive) && TimeField(d, CreatedAt) == Some(u.createdAt);
    assert DecodeOptStr(d, AvatarURL) == Some(u.avatarURL);
    assert DecodeOptStr(d, PartnerID) == Some(u.partnerID);
    assert DecodeOptStr(d, CoupleID) == Some(u.coupleID);
    assert DecodeOptStr(d, FcmToken) == Some(u.fcmToken);
    DecodeMoodOf(u, d);
  }

  lemma DecodeMoodOf(u: User, d: Doc)
    requires d == UserDictionary(u)
    ensures DecodeOptMood(d) == Some(u.currentMood)
  {
    if u.currentMood.Some? {
      MoodRoundTrip(u.currentMood.value);
    }
  }

  /** A user is connected exactly when their stored document carries both a
      partner and a couple. */
  lemma ConnectedIsStored(u: User)
    ensures IsConnected(u) <==> PartnerID in UserDictionary(u) && CoupleID in UserDictionary(u)
  {
  }

  /** `User.sample` and `User.samplePartner`; `now` is the clock reading
      their defaulted instants take. */
  function SampleUser(now: int): User {
    NewUser(Some("user123"), "+15551234567", "Alex", now)
      .(partnerID := Some("partner456"), coupleID := Some("couple789"), currentMood := Some(Loved))
  }

  function SamplePartner(now: int): User {
    NewUser(Some("partner456"), "+15559876543", "Jamie", now)
      .(partnerID := Some("user123"), coupleID := Some("couple789"), currentMood := Some(Great))
  }

  /** Two users are linked to each other when each one's partner is the
      other one and they share one couple. */
  predicate LinkedPair(a: User, b: User) {
    a.id.Some? && b.id.Some? && a.id != b.id
    && a.partnerID == b.id && b.partnerID == a.id
    && a.coupleID.Some? && a.coupleID == b.coupleID
  }

  lemma SamplePairLinked(now: int)
    ensures LinkedPair(SampleUser(now), SamplePartner(now))
    ensures IsConnected(SampleUser(now)) && IsConnected(SamplePartner(now))
    ensures SampleUser(now).coupleID == Some("couple789")
  {
  }
}
