/** The invite/pairing engine backed by the document store
    (Couply/Core/Services/PairingService.swift). The collections `invites`,
    `couples` and `users` are the maps of a shared `Cloud`; the signed-in
    user, the clock, the random code symbols and the store's fresh document
    ids are parameters. */
module Pairing {
  import opened Store
  import opened Couples
  import Users

  datatype PairingError =
    | NotAuthenticated | InvalidCode | CodeExpired | CodeAlreadyUsed | CannotUseSelf | NotConnected | Unknown

  /** Why a pairing call failed: one of its own checks, or a store write. */
  datatype Failure = Rejected(reason: PairingError) | StoreFailed(cause: StoreError)

  /** `AuthService.shared.currentUser?.id`. */
  function CurrentUserID(currentUser: Option<Users.User>): Option<string> {
    if currentUser.Some? then currentUser.value.id else None
  }

  // ---------------------------------------------------------------------
  // Looking a code up

  function UpperChar(ch: char): char {
    if 'a' <= ch <= 'z' then (ch as int - 32) as char else ch
  }

  function LowerChar(ch: char): char {
    if 'A' <= ch <= 'Z' then (ch as int + 32) as char else ch
  }

  /** `String.uppercased()` on ASCII letters. */
  function Uppercased(s: string): (r: string)
    ensures |r| == |s| && forall i :: 0 <= i < |s| ==> r[i] == UpperChar(s[i])
  {
    seq(|s|, i requires 0 <= i < |s| => UpperChar(s[i]))
  }

  function Lowercased(s: string): (r: string)
    ensures |r| == |s| && forall i :: 0 <= i < |s| ==> r[i] == LowerChar(s[i])
  {
    seq(|s|, i requires 0 <= i < |s| => LowerChar(s[i]))
  }

  /** Upper-casing is idempotent, so a key that was already upper-cased is
      looked up unchanged. */
  lemma UppercasedIdempotent(s: string)
    ensures Uppercased(Uppercased(s)) == Uppercased(s)
  {
  }

  /** Any spelling of a well-formed code, whatever the case of its letters,
      is looked up under the code itself: the lookup is case-insensitive. */
  lemma CodeLookupIgnoresCase(code: string, typed: string)
    requires IsCodeFormat(code)
    requires |typed| == |code| && forall i :: 0 <= i < |code| ==> typed[i] == code[i] || typed[i] == LowerChar(code[i])
    ensures Uppercased(typed) == code
  {
    CodeAlphabetShape();
    assert code[..5] == CodePrefix;
    forall i | 0 <= i < |code| ensures UpperChar(typed[i]) == code[i] {
      if i < 5 {
        assert code[i] == CodePrefix[i];
      } else {
        assert code[i] in CodeAlphabet;
      }
    }
  }

  lemma LowercaseCodeFound(code: string)
    requires IsCodeFormat(code)
    ensures Uppercased(Lowercased(code)) == code
  {
    CodeLookupIgnoresCase(code, Lowercased(code));
  }

  function Lookup(collection: map<string, Doc>, id: string): (r: Option<Doc>)
    ensures r.Some? <==> id in collection
    ensures r.Some? ==> r.value == collection[id]
  {
    if id in collection then Some(collection[id]) else None
  }

  // ---------------------------------------------------------------------
  // Invite documents

  /** The document stored for a new invite, keyed by its code: four fields,
      no `usedBy` and no `usedAt`. */
  function InviteDocument(inv: InviteCode): (d: Doc)
    ensures d.Keys == {Code, CreatorID, CreatedAt, ExpiresAt}
    ensures d[Code] == VStr(inv.code) && d[CreatorID] == VStr(inv.creatorID)
    ensures d[CreatedAt] == VTime(inv.createdAt) && d[ExpiresAt] == VTime(inv.expiresAt)
  {
    map[Code := VStr(inv.code), CreatorID := VStr(inv.creatorID),
        CreatedAt := VTime(inv.createdAt), ExpiresAt := VTime(inv.expiresAt)]
  }

  /** The second write of a successful join: the invite records who used it
      and when. */
  function MarkUsed(d: Doc, joinerID: string, now: int): (r: Doc)
    ensures r.Keys == d.Keys + {UsedBy, UsedAt}
    ensures r[UsedBy] == VStr(joinerID) && r[UsedAt] == VTime(now)
    ensures forall k :: k in d && k != UsedBy && k != UsedAt ==> r[k] == d[k]
  {
    d[UsedBy := VStr(joinerID)][UsedAt := VTime(now)]
  }

  /** The checks `joinWithCode` makes, in the source's order, on the invite
      document found under the upper-cased code; on success the creator's id. */
  function CheckInvite(doc: Option<Doc>, joinerID: string, now: int): Result<string, PairingError> {
    if doc.None? then Err(InvalidCode)
    else
      var creator, expires := StrField(doc.value, CreatorID), TimeField(doc.value, ExpiresAt);
      if creator.None? || expires.None? then Err(InvalidCode)
      else if now > expires.value then Err(CodeExpired)
      else if UsedBy in doc.value then Err(CodeAlreadyUsed)
      else if creator.value == joinerID then Err(CannotUseSelf)
      else Ok(creator.value)
  }

  /** The invite document exists and carries a string creator and an expiry
      instant. */
  predicate WellFormedInvite(doc: Option<Doc>) {
    doc.Some? && StrField(doc.value, CreatorID).Some? && TimeField(doc.value, ExpiresAt).Some?
  }

  /** Each outcome of the checks, stated as the exact condition that produces
      it: the error that wins is the first failing check in the order
      invalid code, expired, already used, own code. */
  lemma CheckInviteOutcomes(doc: Option<Doc>, joinerID: string, now: int)
    ensures CheckInvite(doc, joinerID, now) == Err(InvalidCode) <==> !WellFormedInvite(doc)
    ensures CheckInvite(doc, joinerID, now) == Err(CodeExpired) <==>
      WellFormedInvite(doc) && now > doc.value[ExpiresAt].t
    ensures CheckInvite(doc, joinerID, now) == Err(CodeAlreadyUsed) <==>
      WellFormedInvite(doc) && now <= doc.value[ExpiresAt].t && UsedBy in doc.value
    ensures CheckInvite(doc, joinerID, now) == Err(CannotUseSelf) <==>
      WellFormedInvite(doc) && now <= doc.value[ExpiresAt].t && UsedBy !in doc.value
      && doc.value[CreatorID].s == joinerID
    ensures CheckInvite(doc, joinerID, now).Ok? <==>
      WellFormedInvite(doc) && now <= doc.value[ExpiresAt].t && UsedBy !in doc.value
      && doc.value[CreatorID].s != joinerID
    ensures CheckInvite(doc, joinerID, now).Ok? ==> CheckInvite(doc, joinerID, now).value == doc.value[CreatorID].s
  {
  }

  /** A freshly stored invite admits exactly the joins the invite's own
      validity allows: not expired, and not its creator. */
  lemma StoredInviteAdmits(inv: InviteCode, joinerID: string, now: int)
    requires inv.usedBy.None?
    ensures CheckInvite(Some(InviteDocument(inv)), joinerID, now) == Ok(inv.creatorID)
        <==> IsValid(inv, now) && joinerID != inv.creatorID
  {
  }

  /** A creator using their own live code is refused as `CannotUseSelf`; an
      expired one is refused as `CodeExpired` first, because the self check
      comes last. */
  lemma OwnCodeRefused(inv: InviteCode, now: int)
    ensures CheckInvite(Some(InviteDocument(inv)), inv.creatorID, now)
         == if now > inv.expiresAt then Err(CodeExpired) else Err(CannotUseSelf)
  {
  }

  /** Once marked used, an invite admits no further join: it is refused as
      already used, or as expired once its expiry has passed. */
  lemma UsedInviteRefused(d: Doc, firstJoiner: string, usedAt: int, nextJoiner: string, now: int)
    requires WellFormedInvite(Some(d))
    ensures CheckInvite(Some(MarkUsed(d, firstJoiner, usedAt)), nextJoiner, now)
         == if now > d[ExpiresAt].t then Err(CodeExpired) else Err(CodeAlreadyUsed)
  {
  }

  // ---------------------------------------------------------------------
  // Superseding earlier invites

  /** The documents `generateInviteCode`'s query is meant to find: invites by
      `creatorID` that nobody has used, whether `usedBy` is missing or null. */
  function StaleInvites(invites: map<string, Doc>, creatorID: string): (r: set<string>)
    ensures forall id :: id in r <==> id in invites && StrField(invites[id], CreatorID) == Some(creatorID)
                                       && (UsedBy !in invites[id] || invites[id][UsedBy] == VNull)
  {
    set id | id in invites && StrField(invites[id], CreatorID) == Some(creatorID)
                           && (UsedBy !in invites[id] || invites[id][UsedBy] == VNull)
  }

  /** The query as written, `whereField("usedBy", isEqualTo: NSNull())`: the
      document store matches an equality-to-null filter only on documents
      where the field is present and null. */
  function StaleInvitesAsWritten(invites: map<string, Doc>, creatorID: string): (r: set<string>)
    ensures forall id :: id in r <==> id in invites && StrField(invites[id], CreatorID) == Some(creatorID)
                                       && UsedBy in invites[id] && invites[id][UsedBy] == VNull
  {
    set id | id in invites && StrField(invites[id], CreatorID) == Some(creatorID)
                           && UsedBy in invites[id] && invites[id][UsedBy] == VNull
  }

  /** The invites collection after `generateInviteCode` with the query
      `stale`: the stale invites deleted, the new one stored under its code. */
  function Supersede(invites: map<string, Doc>, stale: set<string>, inv: InviteCode): map<string, Doc> {
    (invites - stale)[inv.code := InviteDocument(inv)]
  }

  /** As written, an invite that `generateInviteCode` itself stored never
      matches the query, so generating a second code leaves the first one in
      place and still joinable. */
  lemma AsWrittenKeepsEarlierInvite(invites: map<string, Doc>, first: InviteCode, second: InviteCode,
                                    joinerID: string, now: int)
    requires first.code != second.code && first.creatorID == second.creatorID
    requires first.code in invites && invites[first.code] == InviteDocument(first)
    requires joinerID != first.creatorID && now <= first.expiresAt
    ensures first.code !in StaleInvitesAsWritten(invites, first.creatorID)
    ensures var after := Supersede(invites, StaleInvitesAsWritten(invites, first.creatorID), second);
            CheckInvite(Lookup(after, first.code), joinerID, now) == Ok(first.creatorID)
  {
    var after := Supersede(invites, StaleInvitesAsWritten(invites, first.creatorID), second);
    assert after[first.code] == InviteDocument(first);
  }

  /** With the intended query, every earlier unused invite of the creator is
      gone after a new code is generated, and joining with it fails as an
      invalid code. */
  lemma {:induction false} SupersededInviteRefused(invites: map<string, Doc>, creatorID: string, oldCode: string,
                                                   inv: InviteCode, joinerID: string, now: int)
    requires inv.creatorID == creatorID && oldCode != inv.code
    requires oldCode in invites && StrField(invites[oldCode], CreatorID) == Some(creatorID)
    requires UsedBy !in invites[oldCode]
    ensures oldCode !in Supersede(invites, StaleInvites(invites, creatorID), inv)
    ensures CheckInvite(Lookup(Supersede(invites, StaleInvites(invites, creatorID), inv), oldCode), joinerID, now)
         == Err(InvalidCode)
  {
    assert oldCode in StaleInvites(invites, creatorID);
  }

  /** Superseding touches nothing but the creator's unused invites and the
      new code: a used invite, or another user's, survives. */
  lemma SupersedeKeepsOthers(invites: map<string, Doc>, creatorID: string, inv: InviteCode, id: string)
    requires id in invites && id != inv.code
    requires StrField(invites[id], CreatorID) != Some(creatorID) || (UsedBy in invites[id] && invites[id][UsedBy] != VNull)
    ensures var after := Supersede(invites, StaleInvites(invites, creatorID), inv);
            id in after && after[id] == invites[id]
  {
  }

  // ---------------------------------------------------------------------
  // Linking and unlinking users

  /** The user half of `createCouple`'s batch: each user's document gets the
      other as `partnerID` and the new couple as `coupleID`. */
  function LinkUsers(users: map<string, Doc>, user1ID: string, user2ID: string, coupleID: string): map<string, Doc>
    requires user1ID in users && user2ID in users
  {
    var linked1 := users[user1ID := users[user1ID][PartnerID := VStr(user2ID)][CoupleID := VStr(coupleID)]];
    linked1[user2ID := linked1[user2ID][PartnerID := VStr(user1ID)][CoupleID := VStr(coupleID)]]
  }

  /** The user half of `disconnectPartner`'s batch: both fields removed from
      both users' documents. */
  function UnlinkUsers(users: map<string, Doc>, userID: string, partnerID: string): map<string, Doc>
    requires userID in users && partnerID in users
  {
    var unlinked := users[userID := users[userID] - {PartnerID, CoupleID}];
    unlinked[partnerID := unlinked[partnerID] - {PartnerID, CoupleID}]
  }

  /** After linking two distinct users each names the other as partner, both
      name the same couple, and no other document or field changes. */
  lemma LinkIsSymmetric(users: map<string, Doc>, user1ID: string, user2ID: string, coupleID: string)
    requires user1ID in users && user2ID in users && user1ID != user2ID
    ensures var after := LinkUsers(users, user1ID, user2ID, coupleID);
      && after.Keys == users.Keys
      && after[user1ID][PartnerID] == VStr(user2ID) && after[user2ID][PartnerID] == VStr(user1ID)
      && after[user1ID][CoupleID] == VStr(coupleID) && after[user2ID][CoupleID] == VStr(coupleID)
      && (forall id :: id in users && id != user1ID && id != user2ID ==> after[id] == users[id])
      && (forall k :: k != PartnerID && k != CoupleID ==>
            (k in after[user1ID] <==> k in users[user1ID]) && (k in after[user2ID] <==> k in users[user2ID]))
  {
  }

  /** Reading the linked documents back as users gives a linked pair in the
      sense of the User model: each the other's partner, one shared couple. */
  lemma {:induction false} LinkedUsersDecodeAsPair(users: map<string, Doc>, user1ID: string, user2ID: string,
                                                   coupleID: string, a: Users.User, b: Users.User)
    requires user1ID in users && user2ID in users && user1ID != user2ID
    requires Users.UserFromDoc(Some(user1ID), users[user1ID]) == Some(a)
    requires Users.UserFromDoc(Some(user2ID), users[user2ID]) == Some(b)
    ensures var after := LinkUsers(users, user1ID, user2ID, coupleID);
      && Users.UserFromDoc(Some(user1ID), after[user1ID]) == Some(a.(partnerID := Some(user2ID), coupleID := Some(coupleID)))
      && Users.UserFromDoc(Some(user2ID), after[user2ID]) == Some(b.(partnerID := Some(user1ID), coupleID := Some(coupleID)))
      && Users.LinkedPair(a.(partnerID := Some(user2ID), coupleID := Some(coupleID)),
                          b.(partnerID := Some(user1ID), coupleID := Some(coupleID)))
  {
    var after := LinkUsers(users, user1ID, user2ID, coupleID);
    assert after[user1ID] == users[user1ID][PartnerID := VStr(user2ID)][CoupleID := VStr(coupleID)];
    assert after[user2ID] == users[user2ID][PartnerID := VStr(user1ID)][CoupleID := VStr(coupleID)];
    DecodeWithLink(Some(user1ID), users[user1ID], a, user2ID, coupleID);
    DecodeWithLink(Some(user2ID), users[user2ID], b, user1ID, coupleID);
  }

  /** Setting the two link fields on a user document sets them on the user
      it decodes to. */
  lemma DecodeWithLink(id: Option<string>, d: Doc, u: Users.User, partnerID: string, coupleID: string)
    requires Users.UserFromDoc(id, d) == Some(u)
    ensures Users.UserFromDoc(id, d[PartnerID := VStr(partnerID)][CoupleID := VStr(coupleID)])
         == Some(u.(partnerID := Some(partnerID), coupleID := Some(coupleID)))
  {
    var d' := d[PartnerID := VStr(partnerID)][CoupleID := VStr(coupleID)];
    assert StrField(d', PhoneNumber) == StrField(d, PhoneNumber);
    assert StrField(d', DisplayName) == StrField(d, DisplayName);
    assert TimeField(d', LastActive) == TimeField(d, LastActive);
    assert TimeField(d', CreatedAt) == TimeField(d, CreatedAt);
    assert DecodeOptStr(d', AvatarURL) == DecodeOptStr(d, AvatarURL);
    assert DecodeOptStr(d', FcmToken) == DecodeOptStr(d, FcmToken);
    assert Users.DecodeOptMood(d') == Users.DecodeOptMood(d);
    assert DecodeOptStr(d', PartnerID) == Some(Some(partnerID));
    assert DecodeOptStr(d', CoupleID) == Some(Some(coupleID));
  }

  /** Disconnecting undoes linking: for two users who were not linked to
      anyone, unlinking after linking restores their documents exactly. */
  lemma {:induction false} UnlinkUndoesLink(users: map<string, Doc>, user1ID: string, user2ID: string, coupleID: string)
    requires user1ID in users && user2ID in users && user1ID != user2ID
    requires PartnerID !in users[user1ID] && CoupleID !in users[user1ID]
    requires PartnerID !in users[user2ID] && CoupleID !in users[user2ID]
    ensures UnlinkUsers(LinkUsers(users, user1ID, user2ID, coupleID), user1ID, user2ID) == users
  {
    var linked := LinkUsers(users, user1ID, user2ID, coupleID);
    var after := UnlinkUsers(linked, user1ID, user2ID);
    assert linked[user1ID] == users[user1ID][PartnerID := VStr(user2ID)][CoupleID := VStr(coupleID)];
    assert linked[user2ID] == users[user2ID][PartnerID := VStr(user1ID)][CoupleID := VStr(coupleID)];
    assert after[user1ID] == users[user1ID];
    assert after[user2ID] == users[user2ID];
    assert after.Keys == users.Keys;
  }

  // ---------------------------------------------------------------------
  // The service

  class PairingService {
    var currentInviteCode: Option<InviteCode>
    var isWaitingForPartner: bool
    /** The code whose invite document the service is listening to, if any. */
    var listeningTo: Option<string>
    const db: Cloud

    constructor (db: Cloud)
      ensures this.db == db
      ensures currentInviteCode.None? && !isWaitingForPartner && listeningTo.None?
    {
      this.db := db;
      currentInviteCode, isWaitingForPartner, listeningTo := None, false, None;
    }

    /** `generateInviteCode`: deletes, one by one, the invites its query
        finds (the query as written, see `StaleInvitesAsWritten`), stores the
        new invite under its code and starts listening to it. */
    method GenerateInviteCode(currentUser: Option<Users.User>, picks: seq<nat>, now: int)
      returns (r: Result<InviteCode, Failure>)
      requires |picks| == 4 && forall i :: 0 <= i < 4 ==> picks[i] < |CodeAlphabet|
      modifies this, db`invites
      ensures CurrentUserID(currentUser).None? ==>
        r == Err(Rejected(NotAuthenticated)) && unchanged(this) && db.invites == old(db.invites)
      ensures CurrentUserID(currentUser).Some? ==>
        var creatorID := CurrentUserID(currentUser).value;
        && r == Ok(Generate(creatorID, picks, now))
        && db.invites == Supersede(old(db.invites), StaleInvitesAsWritten(old(db.invites), creatorID), r.value)
        && currentInviteCode == Some(r.value) && isWaitingForPartner && listeningTo == Some(r.value.code)
    {
      if CurrentUserID(currentUser).None? {
        return Err(Rejected(NotAuthenticated));
      }
      var creatorID := CurrentUserID(currentUser).value;
      var stale := StaleInvitesAsWritten(db.invites, creatorID);
      ghost var query := stale;
      while stale != {}
        invariant stale <= query
        invariant db.invites == old(db.invites) - (query - stale)
        decreases stale
      {
        var id :| id in stale;
        db.invites := db.invites - {id};
        stale := stale - {id};
      }
      var invite := Generate(creatorID, picks, now);
      db.invites := db.invites[invite.code := InviteDocument(invite)];
      currentInviteCode := Some(invite);
      isWaitingForPartner := true;
      listeningTo := Some(invite.code);
      r := Ok(invite);
    }

    /** `createCouple`: one atomic batch that stores the new couple and links
        both users to it; if either user document is missing the batch fails
        and nothing is written. */
    method CreateCouple(user1ID: string, user2ID: string, coupleID: string, now: int) returns (r: Outcome<Failure>)
      modifies db`couples, db`users
      ensures r.Fail? <==> user1ID !in old(db.users) || user2ID !in old(db.users)
      ensures r.Fail? ==> r.error.StoreFailed? && db.users == old(db.users) && db.couples == old(db.couples)
      ensures r.Pass? ==>
        && db.couples == old(db.couples)[coupleID := CoupleDictionary(NewCouple(Some(coupleID), user1ID, user2ID, now))]
        && db.users == LinkUsers(old(db.users), user1ID, user2ID, coupleID)
    {
      if user1ID !in db.users {
        return Fail(StoreFailed(NotFound(user1ID)));
      }
      if user2ID !in db.users {
        return Fail(StoreFailed(NotFound(user2ID)));
      }
      var couple := NewCouple(Some(coupleID), user1ID, user2ID, now);
      db.couples := db.couples[coupleID := CoupleDictionary(couple)];
      db.users := LinkUsers(db.users, user1ID, user2ID, coupleID);
      r := Pass;
    }

    /** `joinWithCode`: the checks on the invite found under the upper-cased
        code, then the couple batch, then, as a separate write, the invite
        marked used. `newCoupleID` is the id the store assigns. */
    method JoinWithCode(currentUser: Option<Users.User>, code: string, now: int, newCoupleID: string)
      returns (r: Outcome<Failure>)
      modifies db`invites, db`couples, db`users
      ensures CurrentUserID(currentUser).None? ==>
        r == Fail(Rejected(NotAuthenticated))
        && db.invites == old(db.invites) && db.couples == old(db.couples) && db.users == old(db.users)
      ensures CurrentUserID(currentUser).Some? ==>
        var joinerID, key := CurrentUserID(currentUser).value, Uppercased(code);
        var check := CheckInvite(Lookup(old(db.invites), key), joinerID, now);
        && (check.Err? ==>
              && r == Fail(Rejected(check.error))
              && db.invites == old(db.invites) && db.couples == old(db.couples) && db.users == old(db.users))
        && (check.Ok? && (check.value !in old(db.users) || joinerID !in old(db.users)) ==>
              && r.Fail? && r.error.StoreFailed?
              && db.invites == old(db.invites) && db.couples == old(db.couples) && db.users == old(db.users))
        && (check.Ok? && check.value in old(db.users) && joinerID in old(db.users) ==>
              && r == Pass
              && db.couples == old(db.couples)[newCoupleID := CoupleDictionary(NewCouple(Some(newCoupleID), check.value, joinerID, now))]
              && db.users == LinkUsers(old(db.users), check.value, joinerID, newCoupleID)
              && db.invites == old(db.invites)[key := MarkUsed(old(db.invites)[key], joinerID, now)])
    {
      if CurrentUserID(currentUser).None? {
        return Fail(Rejected(NotAuthenticated));
      }
      var joinerID := CurrentUserID(currentUser).value;
      var key := Uppercased(code);
      var check := CheckInvite(Lookup(db.invites, key), joinerID, now);
      if check.Err? {
        return Fail(Rejected(check.error));
      }
      r := CreateCouple(check.value, joinerID, newCoupleID, now);
      if r.Fail? {
        return;
      }
      db.invites := db.invites[key := MarkUsed(db.invites[key], joinerID, now)];
    }

    /** The invite listener receiving the current state of the invite it
        watches: once the invite carries `usedBy`, waiting ends. */
    method InviteSnapshotDelivered()
      modifies this
      ensures var doc := if old(listeningTo).Some? then Lookup(db.invites, old(listeningTo).value) else None;
        if doc.Some? && UsedBy in doc.value
        then !isWaitingForPartner && currentInviteCode.None? && listeningTo.None?
        else isWaitingForPartner == old(isWaitingForPartner) && currentInviteCode == old(currentInviteCode)
             && listeningTo == old(listeningTo)
    {
      if listeningTo.Some? {
        var doc := Lookup(db.invites, listeningTo.value);
        if doc.Some? && UsedBy in doc.value {
          isWaitingForPartner := false;
          currentInviteCode := None;
          listeningTo := None;
        }
      }
    }

    /** `cancelWaiting`: stops listening and clears the waiting state. The
        new state does not depend on the old one, so a second call changes
        nothing. */
    method CancelWaiting()
      modifies this
      ensures listeningTo.None? && !isWaitingForPartner && currentInviteCode.None?
    {
      listeningTo := None;
      isWaitingForPartner := false;
      currentInviteCode := None;
    }

    /** `disconnectPartner`: needs the signed-in user's id, partner and
        couple; then one atomic batch deletes the couple and removes both link
        fields from both users. */
    method DisconnectPartner(currentUser: Option<Users.User>) returns (r: Outcome<Failure>)
      modifies db`couples, db`users
      ensures !(currentUser.Some? && currentUser.value.id.Some? && currentUser.value.partnerID.Some?
                && currentUser.value.coupleID.Some?) ==>
        r == Fail(Rejected(NotConnected)) && db.couples == old(db.couples) && db.users == old(db.users)
      ensures currentUser.Some? && currentUser.value.id.Some? && currentUser.value.partnerID.Some?
              && currentUser.value.coupleID.Some? ==>
        var userID, partnerID := currentUser.value.id.value, currentUser.value.partnerID.value;
        if userID in old(db.users) && partnerID in old(db.users) then
          r == Pass
          && db.couples == old(db.couples) - {currentUser.value.coupleID.value}
          && db.users == UnlinkUsers(old(db.users), userID, partnerID)
        else
          r.Fail? && r.error.StoreFailed? && db.couples == old(db.couples) && db.users == old(db.users)
    {
      if !(currentUser.Some? && currentUser.value.id.Some? && currentUser.value.partnerID.Some?
           && currentUser.value.coupleID.Some?) {
        return Fail(Rejected(NotConnected));
      }
      var userID, partnerID, coupleID :=
        currentUser.value.id.value, currentUser.value.partnerID.value, currentUser.value.coupleID.value;
      if userID !in db.users {
        return Fail(StoreFailed(NotFound(userID)));
      }
      if partnerID !in db.users {
        return Fail(StoreFailed(NotFound(partnerID)));
      }
      db.couples := db.couples - {coupleID};
      db.users := UnlinkUsers(db.users, userID, partnerID);
      r := Pass;
    }
  }
}
