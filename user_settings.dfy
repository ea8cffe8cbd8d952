/** The two-factor part of the user-settings page: the status fetch, the
    enable, disable and regenerate handlers, and the provisioning URI in the
    Google Authenticator "Key URI" format. Each call to the management
    endpoint is an input: the response it returned, or nothing when it threw. */
module UserSettings {
  import opened Wrappers
  import opened Text

  const TotpIssuer: string := "Acme Inc"

  const FetchFailedMessage: string := "Failed to fetch 2FA status"
  const EnabledMessage: string := "Two-factor authentication has been enabled!"
  const InvalidCodeMessage: string := "Invalid verification code. Please try again."
  const DisabledMessage: string := "Two-factor authentication has been disabled."
  const DisableFailedMessage: string := "Failed to disable 2FA"
  const RegeneratedMessage: string := "New recovery codes have been generated."
  const RegenerateFailedMessage: string := "Failed to generate new recovery codes"

  /** The two-factor status the management endpoint returns. */
  datatype TwoFactorResponse = TwoFactorResponse(
    sharedKey: Option<string>,
    recoveryCodesLeft: int,
    recoveryCodes: Option<seq<string>>,
    isTwoFactorEnabled: bool,
    isMachineRemembered: bool)

  /** The bodies the page posts to the management endpoint. */
  datatype TwoFactorRequest =
    | StatusQuery                   // {}
    | Enable(twoFactorCode: string) // { enable: true, twoFactorCode }
    | ForgetMachine                 // { forgetMachine: true }
    | ResetSharedKey                // { resetSharedKey: true }
    | ResetRecoveryCodes            // { resetRecoveryCodes: true }

  /** `getTotpUri`: "" when the shared key or the user's email is missing or
      empty; otherwise the otpauth URI with the issuer and the email
      percent-encoded and the secret stripped of white space. */
  function TotpUri(sharedKey: Option<string>, email: Option<string>, encodeURIComponent: string -> string): (r: string)
    ensures r == "" <==> sharedKey.None? || sharedKey.value == "" || email.None? || email.value == ""
  {
    if sharedKey.None? || sharedKey.value == "" || email.None? || email.value == "" then ""
    else
      var secret := StripWhitespace(sharedKey.value);
      "otpauth://totp/" + encodeURIComponent(TotpIssuer) + ":" + encodeURIComponent(email.value)
      + "?secret=" + secret + "&issuer=" + encodeURIComponent(TotpIssuer) + "&digits=6"
  }

  /** A complete URI has the fixed scheme and type, the issuer label, a
      white-space-free secret and the six-digit parameter at the end. */
  lemma TotpUriShape(key: string, email: string, encodeURIComponent: string -> string)
    requires key != "" && email != ""
    ensures var r := TotpUri(Some(key), Some(email), encodeURIComponent);
      var prefix := "otpauth://totp/" + encodeURIComponent(TotpIssuer) + ":" + encodeURIComponent(email) + "?secret=";
      var secret := StripWhitespace(key);
      && r == prefix + secret + "&issuer=" + encodeURIComponent(TotpIssuer) + "&digits=6"
      && forall i :: |prefix| <= i < |prefix| + |secret| ==> !IsJsWhitespace(r[i])
  {
    var prefix := "otpauth://totp/" + encodeURIComponent(TotpIssuer) + ":" + encodeURIComponent(email) + "?secret=";
    var secret := StripWhitespace(key);
    var r := TotpUri(Some(key), Some(email), encodeURIComponent);
    assert r == prefix + secret + ("&issuer=" + encodeURIComponent(TotpIssuer) + "&digits=6");
    forall i | |prefix| <= i < |prefix| + |secret| ensures !IsJsWhitespace(r[i]) {
      assert r[i] == secret[i - |prefix|];
    }
  }

  /** The groups joined with single spaces, as the key is displayed. */
  function JoinWithSpaces(groups: seq<string>): string {
    if groups == [] then "" else if |groups| == 1 then groups[0] else groups[0] + " " + JoinWithSpaces(groups[1..])
  }

  function Concat(groups: seq<string>): string {
    if groups == [] then "" else groups[0] + Concat(groups[1..])
  }

  /** The secret placed in the URI is the same whether or not the key was
      shown in space-separated groups. */
  lemma {:induction false} TotpSecretIgnoresGrouping(groups: seq<string>)
    requires forall i, j :: 0 <= i < |groups| && 0 <= j < |groups[i]| ==> !IsJsWhitespace(groups[i][j])
    ensures StripWhitespace(JoinWithSpaces(groups)) == Concat(groups)
    decreases |groups|
  {
    if |groups| == 1 {
      assert forall j :: 0 <= j < |groups[0]| ==> !IsJsWhitespace(groups[0][j]);
      assert Concat(groups) == groups[0] + "";
    } else if |groups| > 1 {
      var rest := JoinWithSpaces(groups[1..]);
      TotpSecretIgnoresGrouping(groups[1..]);
      assert forall j :: 0 <= j < |groups[0]| ==> !IsJsWhitespace(groups[0][j]);
      assert StripWhitespace(groups[0]) == groups[0];
      assert JoinWithSpaces(groups) == groups[0] + (" " + rest);
      StripWhitespaceAppend(groups[0], " " + rest);
      StripWhitespaceAppend(" ", rest);
      assert StripWhitespace(" ") == [];
    }
  }

  class TwoFactorSettings {
    var twoFactorData: Option<TwoFactorResponse>
    var verificationCode: string
    var twoFactorError: Option<string>
    var twoFactorSuccess: Option<string>
    var showRecoveryCodes: bool
    var isLoading2FA: bool
    var showSetup2FA: bool
    /** The requests posted so far, in order. */
    var sent: seq<TwoFactorRequest>

    constructor ()
      ensures twoFactorData.None? && verificationCode == "" && twoFactorError.None? && twoFactorSuccess.None?
      ensures !showRecoveryCodes && isLoading2FA && !showSetup2FA && sent == []
    {
      twoFactorData, verificationCode, twoFactorError, twoFactorSuccess := None, "", None, None;
      showRecoveryCodes, isLoading2FA, showSetup2FA, sent := false, true, false, [];
    }

    /** `fetchTwoFactorStatus`: loading ends whatever the outcome. */
    method FetchTwoFactorStatus(response: Option<TwoFactorResponse>)
      modifies this
      ensures sent == old(sent) + [StatusQuery]
      ensures !isLoading2FA
      ensures response.Some? ==> twoFactorData == response && twoFactorError.None?
      ensures response.None? ==> twoFactorData == old(twoFactorData) && twoFactorError == Some(FetchFailedMessage)
      ensures verificationCode == old(verificationCode) && twoFactorSuccess == old(twoFactorSuccess)
      ensures showRecoveryCodes == old(showRecoveryCodes) && showSetup2FA == old(showSetup2FA)
    {
      twoFactorError := None;
      sent := sent + [StatusQuery];
      if response.Some? {
        twoFactorData := response;
      } else {
        twoFactorError := Some(FetchFailedMessage);
      }
      isLoading2FA := false;
    }

    /** `handleEnable2FA`: the code is cleared on success and on failure;
        the success message and the recovery codes appear, and the setup
        panel closes, only when the response reports two-factor enabled. */
    method HandleEnable2FA(response: Option<TwoFactorResponse>)
      modifies this
      ensures sent == old(sent) + [Enable(old(verificationCode))]
      ensures verificationCode == ""
      ensures response.Some? ==>
        && twoFactorData == response && twoFactorError.None?
        && (response.value.isTwoFactorEnabled ==>
              twoFactorSuccess == Some(EnabledMessage) && showRecoveryCodes && !showSetup2FA)
        && (!response.value.isTwoFactorEnabled ==>
              twoFactorSuccess.None? && showRecoveryCodes == old(showRecoveryCodes) && showSetup2FA == old(showSetup2FA))
      ensures response.None? ==>
        && twoFactorData == old(twoFactorData) && twoFactorError == Some(InvalidCodeMessage) && twoFactorSuccess.None?
        && showRecoveryCodes == old(showRecoveryCodes) && showSetup2FA == old(showSetup2FA)
      ensures isLoading2FA == old(isLoading2FA)
    {
      twoFactorError := None;
      twoFactorSuccess := None;
      sent := sent + [Enable(verificationCode)];
      if response.Some? {
        twoFactorData := response;
        verificationCode := "";
        if response.value.isTwoFactorEnabled {
          twoFactorSuccess := Some(EnabledMessage);
          showRecoveryCodes := true;
          showSetup2FA := false;
        }
      } else {
        twoFactorError := Some(InvalidCodeMessage);
        verificationCode := "";
      }
    }

    /** `handleDisable2FA`: forget-machine first, then reset-shared-key (only
        when the first call succeeded); the second response is stored and the
        recovery codes are hidden. */
    method HandleDisable2FA(forgetMachineSucceeded: bool, response: Option<TwoFactorResponse>)
      modifies this
      ensures !forgetMachineSucceeded ==>
        && sent == old(sent) + [ForgetMachine]
        && twoFactorData == old(twoFactorData) && twoFactorError == Some(DisableFailedMessage) && twoFactorSuccess.None?
        && showRecoveryCodes == old(showRecoveryCodes)
      ensures forgetMachineSucceeded ==> sent == old(sent) + [ForgetMachine, ResetSharedKey]
      ensures forgetMachineSucceeded && response.Some? ==>
        && twoFactorData == response && twoFactorError.None? && twoFactorSuccess == Some(DisabledMessage)
        && !showRecoveryCodes
      ensures forgetMachineSucceeded && response.None? ==>
        && twoFactorData == old(twoFactorData) && twoFactorError == Some(DisableFailedMessage) && twoFactorSuccess.None?
        && showRecoveryCodes == old(showRecoveryCodes)
      ensures verificationCode == old(verificationCode) && isLoading2FA == old(isLoading2FA) && showSetup2FA == old(showSetup2FA)
    {
      twoFactorError := None;
      twoFactorSuccess := None;
      sent := sent + [ForgetMachine];
      if !forgetMachineSucceeded {
        twoFactorError := Some(DisableFailedMessage);
        return;
      }
      sent := sent + [ResetSharedKey];
      if response.Some? {
        twoFactorData := response;
        twoFactorSuccess := Some(DisabledMessage);
        showRecoveryCodes := false;
      } else {
        twoFactorError := Some(DisableFailedMessage);
      }
    }

    /** `handleRegenerateRecoveryCodes`. */
    method HandleRegenerateRecoveryCodes(response: Option<TwoFactorResponse>)
      modifies this
      ensures sent == old(sent) + [ResetRecoveryCodes]
      ensures response.Some? ==>
        && twoFactorData == response && showRecoveryCodes
        && twoFactorError.None? && twoFactorSuccess == Some(RegeneratedMessage)
      ensures response.None? ==>
        && twoFactorData == old(twoFactorData) && showRecoveryCodes == old(showRecoveryCodes)
        && twoFactorError == Some(RegenerateFailedMessage) && twoFactorSuccess.None?
      ensures verificationCode == old(verificationCode) && isLoading2FA == old(isLoading2FA) && showSetup2FA == old(showSetup2FA)
    {
      twoFactorError := None;
      twoFactorSuccess := None;
      sent := sent + [ResetRecoveryCodes];
      if response.Some? {
        twoFactorData := response;
        showRecoveryCodes := true;
        twoFactorSuccess := Some(RegeneratedMessage);
      } else {
        twoFactorError := Some(RegenerateFailedMessage);
      }
    }

    /** `getTotpUri` on the page's current state. */
    function GetTotpUri(userEmail: Option<string>, encodeURIComponent: string -> string): (r: string)
      reads this
      ensures twoFactorData.None? ==> r == ""
      ensures r == "" <==> twoFactorData.None? || twoFactorData.value.sharedKey.None? || twoFactorData.value.sharedKey.value == "" || userEmail.None? || userEmail.value == ""
    {
      TotpUri(if twoFactorData.Some? then twoFactorData.value.sharedKey else None, userEmail, encodeURIComponent)
    }
  }
}
