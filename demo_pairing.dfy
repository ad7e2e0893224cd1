/** The demo pairing service
    (Couply/Couply/Couply/Core/Services/PairingService.swift): invite state
    kept locally, and pairing done by editing the demo session directly.
    The random code symbols and the clock are parameters; the simulated
    network delays and the "partner connected" notification are not
    modelled. */
module DemoPairing {
  import opened Store
  import opened Couples
  import opened Users
  import opened DemoAuth
  import Pairing

  class DemoPairingService {
    var currentInviteCode: Option<InviteCode>
    var isWaitingForPartner: bool
    const auth: AuthService

    constructor (auth: AuthService)
      ensures this.auth == auth && currentInviteCode.None? && !isWaitingForPartner
    {
      this.auth := auth;
      currentInviteCode, isWaitingForPartner := None, false;
    }

    /** `generateInviteCode`: a fresh code for the signed-in user, who then
        waits for a partner. */
    method GenerateInviteCode(picks: seq<nat>, now: int) returns (r: Result<InviteCode, Pairing.PairingError>)
      requires |picks| == 4 && forall i :: 0 <= i < 4 ==> picks[i] < |CodeAlphabet|
      modifies this
      ensures !(auth.currentUser.Some? && auth.currentUser.value.id.Some?) ==>
        r == Err(Pairing.NotAuthenticated)
        && currentInviteCode == old(currentInviteCode) && isWaitingForPartner == old(isWaitingForPartner)
      ensures auth.currentUser.Some? && auth.currentUser.value.id.Some? ==>
        && r == Ok(Generate(auth.currentUser.value.id.value, picks, now))
        && currentInviteCode == Some(r.value) && isWaitingForPartner
    {
      if !(auth.currentUser.Some? && auth.currentUser.value.id.Some?) {
        return Err(Pairing.NotAuthenticated);
      }
      var invite := Generate(auth.currentUser.value.id.value, picks, now);
      currentInviteCode := Some(invite);
      isWaitingForPartner := true;
      r := Ok(invite);
    }

    /** `joinWithCode`: the code is not looked at; a signed-in user is always
        connected to the demo partner. */
    method JoinWithCode(code: string, now: int) returns (r: Outcome<Pairing.PairingError>)
      requires auth.Linked()
      modifies auth
      ensures !(old(auth.currentUser).Some? && old(auth.currentUser).value.id.Some?) ==>
        r == Fail(Pairing.NotAuthenticated) && auth.currentUser == old(auth.currentUser)
        && auth.partner == old(auth.partner) && auth.couple == old(auth.couple)
      ensures old(auth.currentUser).Some? && old(auth.currentUser).value.id.Some? ==>
        && r == Pass
        && auth.currentUser == Some(Connected(old(auth.currentUser).value))
        && auth.partner == Some(DemoPartner(now)) && auth.couple == Some(DemoCouple(now))
        && LinkedPair(auth.currentUser.value, auth.partner.value)
      ensures auth.isAuthenticated == old(auth.isAuthenticated) && auth.isLoading == old(auth.isLoading)
      ensures auth.Linked()
    {
      if !(auth.currentUser.Some? && auth.currentUser.value.id.Some?) {
        return Fail(Pairing.NotAuthenticated);
      }
      auth.ConnectWithPartner(now);
      r := Pass;
    }

    /** `cancelWaiting`. */
    method CancelWaiting()
      modifies this
      ensures !isWaitingForPartner && currentInviteCode.None?
    {
      isWaitingForPartner := false;
      currentInviteCode := None;
    }

    /** `disconnectPartner`: refused unless the signed-in user has a partner;
        then partner, couple and both link fields of the user are cleared. */
    method DisconnectPartner() returns (r: Outcome<Pairing.PairingError>)
      requires auth.Linked()
      modifies auth
      ensures !(old(auth.currentUser).Some? && old(auth.currentUser).value.partnerID.Some?) ==>
        r == Fail(Pairing.NotConnected) && auth.currentUser == old(auth.currentUser)
        && auth.partner == old(auth.partner) && auth.couple == old(auth.couple)
      ensures old(auth.currentUser).Some? && old(auth.currentUser).value.partnerID.Some? ==>
        && r == Pass && auth.partner.None? && auth.couple.None?
        && auth.currentUser == Some(old(auth.currentUser).value.(partnerID := None, coupleID := None))
        && !IsConnected(auth.currentUser.value)
      ensures auth.isAuthenticated == old(auth.isAuthenticated) && auth.isLoading == old(auth.isLoading)
      ensures auth.Linked()
    {
      if !(auth.currentUser.Some? && auth.currentUser.value.partnerID.Some?) {
        return Fail(Pairing.NotConnected);
      }
      auth.partner := None;
      auth.couple := None;
      auth.currentUser := Some(auth.currentUser.value.(partnerID := None));
      auth.currentUser := Some(auth.currentUser.value.(coupleID := None));
      r := Pass;
    }

    /** `simulatePartnerJoining`: stops waiting and connects the signed-in
        user, if any, to the demo partner. */
    method SimulatePartnerJoining(now: int)
      requires auth.Linked()
      modifies this, auth
      ensures !isWaitingForPartner && currentInviteCode.None?
      ensures auth.partner == Some(DemoPartner(now)) && auth.couple == Some(DemoCouple(now))
      ensures auth.currentUser == if old(auth.currentUser).Some? then Some(Connected(old(auth.currentUser).value)) else None
      ensures auth.isAuthenticated == old(auth.isAuthenticated) && auth.isLoading == old(auth.isLoading)
      ensures auth.Linked()
    {
      isWaitingForPartner := false;
      currentInviteCode := None;
      auth.ConnectWithPartner(now);
    }
  }
}
