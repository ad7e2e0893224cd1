/** The Couple aggregate, invite codes and streak milestones
    (Couply/Couply/Couply/Core/Models/Couple.swift). Instants are whole
    seconds; the local calendar day of an instant is supplied by the caller as
    `dayOf`, and `today` is a day number. */
module Couples {
  import opened Store

  datatype Couple = Couple(
    id: Option<string>,
    user1ID: string,
    user2ID: string,
    inviteCode: Option<string>,
    streakCount: int,
    longestStreak: int,
    lastPhotoDate: Option<int>,
    lastStreakUpdate: Option<int>,
    totalPhotosExchanged: int,
    anniversaryDate: Option<int>,
    createdAt: int)

  /** The counter invariant every couple should keep: streaks and the photo
      total are never negative and the longest streak is at least the current
      one. */
  predicate CountersConsistent(c: Couple) {
    0 <= c.streakCount <= c.longestStreak && 0 <= c.totalPhotosExchanged
  }

  /** `Couple.init` with every defaulted argument left at its default. */
  function NewCouple(id: Option<string>, user1ID: string, user2ID: string, createdAt: int): (c: Couple)
    ensures c.id == id && c.user1ID == user1ID && c.user2ID == user2ID && c.createdAt == createdAt
    ensures c.streakCount == 0 && c.longestStreak == 0 && c.totalPhotosExchanged == 0
    ensures c.inviteCode.None? && c.lastPhotoDate.None? && c.lastStreakUpdate.None? && c.anniversaryDate.None?
    ensures CountersConsistent(c)
  {
    Couple(id, user1ID, user2ID, None, 0, 0, None, None, 0, None, createdAt)
  }

  /** A photo sent today or yesterday keeps the streak alive. */
  predicate IsStreakActive(c: Couple, dayOf: int -> int, today: int) {
    c.lastPhotoDate.Some? && (dayOf(c.lastPhotoDate.value) == today || dayOf(c.lastPhotoDate.value) == today - 1)
  }

  /** The other member of the couple; any id that is not `user1ID` is
      answered with `user1ID`. */
  function PartnerID(c: Couple, userID: string): (r: string)
    ensures userID == c.user1ID ==> r == c.user2ID
    ensures userID != c.user1ID ==> r == c.user1ID
  {
    if userID == c.user1ID then c.user2ID else c.user1ID
  }

  /** For a couple of two distinct users, asking twice gives back the member
      one started from. */
  lemma PartnerOfPartner(c: Couple, userID: string)
    requires c.user1ID != c.user2ID
    requires userID == c.user1ID || userID == c.user2ID
    ensures PartnerID(c, PartnerID(c, userID)) == userID
    ensures PartnerID(c, userID) != userID
  {
  }

  const CoupleRequiredKeys: set<Field> :=
    {User1ID, User2ID, StreakCount, LongestStreak, TotalPhotosExchanged, CreatedAt}
  const CoupleOptionalKeys: set<Field> := {InviteCodeKey, LastPhotoDate, LastStreakUpdate, AnniversaryDate}

  /** The document written for a couple: six fields always, and each optional
      field exactly when it is set. The id is the document's key, not a field. */
  function CoupleDictionary(c: Couple): (d: Doc)
    ensures User1ID in d && d[User1ID] == VStr(c.user1ID)
    ensures User2ID in d && d[User2ID] == VStr(c.user2ID)
    ensures StreakCount in d && d[StreakCount] == VInt(c.streakCount)
    ensures LongestStreak in d && d[LongestStreak] == VInt(c.longestStreak)
    ensures TotalPhotosExchanged in d && d[TotalPhotosExchanged] == VInt(c.totalPhotosExchanged)
    ensures CreatedAt in d && d[CreatedAt] == VTime(c.createdAt)
    ensures InviteCodeKey in d <==> c.inviteCode.Some?
    ensures c.inviteCode.Some? ==> d[InviteCodeKey] == VStr(c.inviteCode.value)
    ensures LastPhotoDate in d <==> c.lastPhotoDate.Some?
    ensures c.lastPhotoDate.Some? ==> d[LastPhotoDate] == VTime(c.lastPhotoDate.value)
    ensures LastStreakUpdate in d <==> c.lastStreakUpdate.Some?
    ensures c.lastStreakUpdate.Some? ==> d[LastStreakUpdate] == VTime(c.lastStreakUpdate.value)
    ensures AnniversaryDate in d <==> c.anniversaryDate.Some?
    ensures c.anniversaryDate.Some? ==> d[AnniversaryDate] == VTime(c.anniversaryDate.value)
  {
    var required := map[User1ID := VStr(c.user1ID), User2ID := VStr(c.user2ID),
        StreakCount := VInt(c.streakCount), LongestStreak := VInt(c.longestStreak),
        TotalPhotosExchanged := VInt(c.totalPhotosExchanged), CreatedAt := VTime(c.createdAt)];
    var d1 := PutIfSome(required, InviteCodeKey, OptStr(c.inviteCode));
    var d2 := PutIfSome(d1, LastPhotoDate, OptTime(c.lastPhotoDate));
    var d3 := PutIfSome(d2, LastStreakUpdate, OptTime(c.lastStreakUpdate));
    PutIfSome(d3, AnniversaryDate, OptTime(c.anniversaryDate))
  }

  /** The couple document holds no field besides the couple's own. */
  lemma CoupleDictionaryKeys(c: Couple)
    ensures CoupleRequiredKeys <= CoupleDictionary(c).Keys <= CoupleRequiredKeys + CoupleOptionalKeys
  {
  }

  /** Reading a couple document back into a `Couple` (its `Decodable`
      conformance, the id coming from the document reference). */
  function CoupleFromDoc(id: Option<string>, d: Doc): (r: Option<Couple>)
    ensures r.Some? ==> r.value.id == id
  {
    var u1, u2 := StrField(d, User1ID), StrField(d, User2ID);
    var sc, ls, tp := IntField(d, StreakCount), IntField(d, LongestStreak), IntField(d, TotalPhotosExchanged);
    var ca := TimeField(d, CreatedAt);
    var ic, lp := DecodeOptStr(d, InviteCodeKey), DecodeOptTime(d, LastPhotoDate);
    var lu, ad := DecodeOptTime(d, LastStreakUpdate), DecodeOptTime(d, AnniversaryDate);
    if u1.Some? && u2.Some? && sc.Some? && ls.Some? && tp.Some? && ca.Some?
       && ic.Some? && lp.Some? && lu.Some? && ad.Some?
    then Some(Couple(id, u1.value, u2.value, ic.value, sc.value, ls.value, lp.value, lu.value,
                     tp.value, ad.value, ca.value))
    else None
  }

  /** Writing a couple and reading it back gives the same couple. */
  lemma CoupleRoundTrip(c: Couple)
    ensures CoupleFromDoc(c.id, CoupleDictionary(c)) == Some(c)
  {
    var d := CoupleDictionary(c);
    assert DecodeOptStr(d, InviteCodeKey) == Some(c.inviteCode);
    assert DecodeOptTime(d, LastPhotoDate) == Some(c.lastPhotoDate);
    assert DecodeOptTime(d, LastStreakUpdate) == Some(c.lastStreakUpdate);
    assert DecodeOptTime(d, AnniversaryDate) == Some(c.anniversaryDate);
  }

  // ---------------------------------------------------------------------
  // Invite codes

  datatype InviteCode = InviteCode(
    code: string,
    creatorID: string,
    createdAt: int,
    usedBy: Option<string>,
    usedAt: Option<int>,
    expiresAt: int)

  /** The symbols a code is drawn from: upper-case letters and digits without
      the look-alikes I, O, 0 and 1. */
  const CodeAlphabet: string := "ABCDEFGHJKLMNPQRSTUVWXYZ23456789"
  const CodePrefix: string := "LOVE-"
  const SecondsPerHour: int := 3600
  const InviteLifetime: int := 24 * SecondsPerHour

  /** An upper-case letter or a digit, other than I, O, 0 and 1. */
  predicate IsUnambiguousSymbol(ch: char) {
    ('A' <= ch <= 'Z' && ch != 'I' && ch != 'O') || ('2' <= ch <= '9')
  }

  lemma CodeAlphabetShape()
    ensures |CodeAlphabet| == 32
    ensures forall i :: 0 <= i < |CodeAlphabet| ==> IsUnambiguousSymbol(CodeAlphabet[i])
  {
  }

  predicate IsExpired(inv: InviteCode, now: int) {
    now > inv.expiresAt
  }

  predicate IsUsed(inv: InviteCode) {
    inv.usedBy.Some?
  }

  predicate IsValid(inv: InviteCode, now: int) {
    !IsExpired(inv, now) && !IsUsed(inv)
  }

  /** A well-formed code: the prefix followed by four alphabet symbols. */
  predicate IsCodeFormat(code: string) {
    |code| == 9 && code[..5] == CodePrefix && forall i :: 5 <= i < 9 ==> code[i] in CodeAlphabet
  }

  /** `InviteCode.generate(for:)`: `picks` are the four random positions in
      the alphabet and `now` the clock reading. */
  function Generate(userID: string, picks: seq<nat>, now: int): (inv: InviteCode)
    requires |picks| == 4 && forall i :: 0 <= i < 4 ==> picks[i] < |CodeAlphabet|
    ensures IsCodeFormat(inv.code)
    ensures forall i :: 0 <= i < 4 ==> inv.code[5 + i] == CodeAlphabet[picks[i]]
    ensures inv.creatorID == userID && inv.createdAt == now
    ensures inv.usedBy.None? && inv.usedAt.None?
    ensures inv.expiresAt == now + 86400
  {
    var random := [CodeAlphabet[picks[0]], CodeAlphabet[picks[1]], CodeAlphabet[picks[2]], CodeAlphabet[picks[3]]];
    InviteCode(CodePrefix + random, userID, now, None, None, now + InviteLifetime)
  }

  /** A freshly generated invite is valid exactly up to its expiry, 24 hours
      after it was made, and never afterwards. */
  lemma GeneratedValidFor24Hours(userID: string, picks: seq<nat>, now: int, t: int)
    requires |picks| == 4 && forall i :: 0 <= i < 4 ==> picks[i] < |CodeAlphabet|
    ensures IsValid(Generate(userID, picks, now), t) <==> t <= now + 86400
  {
  }

  // ---------------------------------------------------------------------
  // Streak milestones

  datatype StreakMilestone = Week | Month | Quarter | Year {
    function RawValue(): int {
      match this
      case Week => 7
      case Month => 30
      case Quarter => 100
      case Year => 365
    }
  }

  const AllMilestones: seq<StreakMilestone> := [Week, Month, Quarter, Year]

  /** The first milestone in `cases` whose raw value is `count`. */
  function FirstWithRaw(cases: seq<StreakMilestone>, count: int): (r: Option<StreakMilestone>)
    ensures r.Some? ==> r.value in cases && r.value.RawValue() == count
    ensures r.None? ==> forall m :: m in cases ==> m.RawValue() != count
  {
    if cases == [] then None
    else if cases[0].RawValue() == count then Some(cases[0])
    else FirstWithRaw(cases[1..], count)
  }

  /** `StreakMilestone.milestone(for:)`. */
  function MilestoneFor(count: int): (r: Option<StreakMilestone>)
    ensures r.Some? <==> count in {7, 30, 100, 365}
    ensures r.Some? ==> r.value.RawValue() == count
  {
    FirstWithRaw(AllMilestones, count)
  }
}
