/** The demo session (Couply/Couply/Couply/Core/Services/AuthService.swift):
    the signed-in user, their partner and their couple, held in memory. The
    clock is a parameter; the splash delay and the simulated network delays
    are not modelled. */
module DemoAuth {
  import opened Store
  import opened Couples
  import opened Users

  const DemoUserID: string := "demo-user-123"
  const DemoPartnerID: string := "demo-partner-456"
  const DemoCoupleID: string := "demo-couple-789"

  /** The user `verifyCode` signs in. */
  function DemoUser(now: int): (u: User)
    ensures u.id == Some(DemoUserID) && !IsConnected(u)
  {
    NewUser(Some(DemoUserID), "+1234567890", "You", now)
  }

  /** The partner `connectWithPartner` installs. */
  function DemoPartner(now: int): User {
    NewUser(Some(DemoPartnerID), "+0987654321", "Partner", now)
      .(partnerID := Some(DemoUserID), coupleID := Some(DemoCoupleID))
  }

  /** The couple `connectWithPartner` installs: seven days of streak and 42
      photos, with the longest streak left at its default. */
  function DemoCouple(now: int): Couple {
    NewCouple(Some(DemoCoupleID), DemoUserID, DemoPartnerID, now).(streakCount := 7, totalPhotosExchanged := 42)
  }

  /** What `connectWithPartner` does to the signed-in user. */
  function Connected(u: User): (c: User)
    ensures c.partnerID == Some(DemoPartnerID) && c.coupleID == Some(DemoCoupleID) && IsConnected(c)
    ensures c.id == u.id && c.displayName == u.displayName && c.currentMood == u.currentMood
    ensures c.phoneNumber == u.phoneNumber && c.avatarURL == u.avatarURL && c.fcmToken == u.fcmToken
    ensures c.lastActive == u.lastActive && c.createdAt == u.createdAt
  {
    u.(partnerID := Some(DemoPartnerID), coupleID := Some(DemoCoupleID))
  }

  /** The demo couple does not satisfy the counter invariant: its streak of 7
      exceeds its longest streak of 0. */
  lemma DemoCoupleBreaksCounters(now: int)
    ensures DemoCouple(now).streakCount == 7 && DemoCouple(now).longestStreak == 0
    ensures !CountersConsistent(DemoCouple(now))
  {
  }

  /** The demo user, once connected, and the demo partner are linked to each
      other, and the demo couple has them as its two distinct members. */
  lemma {:induction false} DemoPairLinked(u: User, now: int)
    requires u.id == Some(DemoUserID)
    ensures LinkedPair(Connected(u), DemoPartner(now))
    ensures DemoCouple(now).user1ID != DemoCouple(now).user2ID
    ensures Couples.PartnerID(DemoCouple(now), DemoUserID) == DemoPartnerID
    ensures Couples.PartnerID(DemoCouple(now), DemoPartnerID) == DemoUserID
  {
    assert DemoUserID != DemoPartnerID by {
      assert DemoUserID[5] != DemoPartnerID[5];
    }
  }

  class AuthService {
    var currentUser: Option<User>
    var partner: Option<User>
    var couple: Option<Couple>
    var isAuthenticated: bool
    var isLoading: bool

    /** The session invariant the demo keeps: the signed-in user is the demo
        user, and while they have a partner, the partner and the couple held
        in the session match them. */
    predicate Linked()
      reads this
    {
      && (currentUser.Some? ==> currentUser.value.id == Some(DemoUserID))
      && (currentUser.Some? && currentUser.value.partnerID.Some? ==>
            && partner.Some? && LinkedPair(currentUser.value, partner.value)
            && couple.Some? && couple.value.id == currentUser.value.coupleID)
    }

    constructor ()
      ensures currentUser.None? && partner.None? && couple.None? && !isAuthenticated && isLoading
      ensures Linked()
    {
      currentUser, partner, couple := None, None, None;
      isAuthenticated, isLoading := false, true;
    }

    /** The end of the launch splash. */
    method SplashFinished()
      modifies this
      ensures !isLoading
      ensures currentUser == old(currentUser) && partner == old(partner) && couple == old(couple)
      ensures isAuthenticated == old(isAuthenticated)
    {
      isLoading := false;
    }

    /** `sendVerificationCode`: every number gets the same verification id. */
    method SendVerificationCode(phoneNumber: string) returns (verificationID: string)
      ensures verificationID == "demo-verification-id"
    {
      verificationID := "demo-verification-id";
    }

    /** `verifyCode`: any code signs in a fresh demo user, with no partner or
        couple, replacing whoever was signed in. */
    method VerifyCode(code: string, verificationID: string, now: int)
      modifies this
      ensures currentUser == Some(DemoUser(now)) && isAuthenticated
      ensures !IsConnected(currentUser.value)
      ensures partner == old(partner) && couple == old(couple) && isLoading == old(isLoading)
      ensures Linked()
    {
      currentUser := Some(DemoUser(now));
      isAuthenticated := true;
    }

    /** `updateProfile`: sets the display name and the avatar, clearing the
        avatar when none is given; signed out, nothing changes. */
    method UpdateProfile(displayName: string, avatarURL: Option<string>)
      requires Linked()
      modifies this
      ensures old(currentUser).None? ==> currentUser.None?
      ensures old(currentUser).Some? ==>
        currentUser == Some(old(currentUser).value.(displayName := displayName, avatarURL := avatarURL))
      ensures partner == old(partner) && couple == old(couple)
      ensures isAuthenticated == old(isAuthenticated) && isLoading == old(isLoading)
      ensures Linked()
    {
      if currentUser.Some? {
        currentUser := Some(currentUser.value.(displayName := displayName, avatarURL := avatarURL));
      }
    }

    /** `updateMood`: sets only the mood. */
    method UpdateMood(mood: Mood)
      requires Linked()
      modifies this
      ensures old(currentUser).None? ==> currentUser.None?
      ensures old(currentUser).Some? ==> currentUser == Some(old(currentUser).value.(currentMood := Some(mood)))
      ensures partner == old(partner) && couple == old(couple)
      ensures isAuthenticated == old(isAuthenticated) && isLoading == old(isLoading)
      ensures Linked()
    {
      if currentUser.Some? {
        currentUser := Some(currentUser.value.(currentMood := Some(mood)));
      }
    }

    /** `signOut`: the session is emptied. */
    method SignOut()
      modifies this
      ensures currentUser.None? && partner.None? && couple.None? && !isAuthenticated
      ensures isLoading == old(isLoading)
      ensures Linked()
    {
      currentUser, partner, couple := None, None, None;
      isAuthenticated := false;
    }

    /** `connectWithPartner`: installs the demo partner and couple and, when
        someone is signed in, links them to both. */
    method ConnectWithPartner(now: int)
      requires Linked()
      modifies this
      ensures partner == Some(DemoPartner(now)) && couple == Some(DemoCouple(now))
      ensures currentUser == if old(currentUser).Some? then Some(Connected(old(currentUser).value)) else None
      ensures isAuthenticated == old(isAuthenticated) && isLoading == old(isLoading)
      ensures Linked()
      ensures currentUser.Some? ==> LinkedPair(currentUser.value, partner.value)
    {
      partner := Some(DemoPartner(now));
      couple := Some(DemoCouple(now));
      if currentUser.Some? {
        DemoPairLinked(currentUser.value, now);
        currentUser := Some(Connected(currentUser.value));
      }
    }
  }
}
