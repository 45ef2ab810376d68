/** The short-note modal: its profile dropdown, the send button's guard,
    the publish call it makes and the notices the result turns into. */
module ShortForm {
  import opened Wrappers
  import opened JsText
  import opened PluginSettings

  const DefaultProfileKey := "default"
  const ConfirmLabel := "Confirm and Send"
  const ConfirmWithProfileLabel := "Confirm and Send with Selected Profile"
  const SendingLabel := "Sending..."
  const AfterSendLabel := "Confirm and Publish"
  const EnterTextNotice := "Please enter text to publish to Nostr"
  const SuccessNotice := "Successfully sent note to Nostr."
  const FailureNotice := "\U{274C} Failed to send note to Nostr."
  const SentToPrefix := "\U{2705} - Sent to "

  /** The send button's label; it depends on the multiple-profiles switch
      and on nothing else. */
  function ButtonLabel(multipleProfilesEnabled: bool): (caption: string)
    ensures caption == ConfirmWithProfileLabel <==> multipleProfilesEnabled
    ensures caption == ConfirmLabel <==> !multipleProfilesEnabled
  {
    if multipleProfilesEnabled then ConfirmWithProfileLabel else ConfirmLabel
  }

  /** The values of the profile dropdown, when it is shown: `default` first,
      then every nickname in configured order. */
  function ProfileOptions(settings: Settings): (r: Option<seq<string>>)
    ensures r.Some? <==> |settings.profiles| > 0 && settings.multipleProfilesEnabled
    ensures r.Some? ==> |r.value| == 1 + |settings.profiles| && r.value[0] == DefaultProfileKey
    ensures r.Some? ==> forall k :: 0 <= k < |settings.profiles| ==> r.value[k + 1] == settings.profiles[k].profileNickname
  {
    if |settings.profiles| > 0 && settings.multipleProfilesEnabled then
      Some([DefaultProfileKey] + seq(|settings.profiles|, k requires 0 <= k < |settings.profiles| => settings.profiles[k].profileNickname))
    else None
  }

  /** The open modal. `sendPending` is the three-second timer the button
      starts; `notices` are all notices shown so far, in order. */
  datatype ModalState = ModalState(
    dropdown: Option<seq<string>>,
    text: string,
    selectedProfileKey: string,
    buttonLabel: string,
    buttonDisabled: bool,
    sendPending: bool,
    open: bool,
    notices: seq<string>)

  /** The state every step keeps: the selected key is `default` unless a
      shown dropdown offered it, and the button is disabled exactly while a
      send is pending. */
  predicate Valid(st: ModalState)
  {
    && (st.dropdown.None? ==> st.selectedProfileKey == DefaultProfileKey)
    && (st.dropdown.Some? ==> st.selectedProfileKey in st.dropdown.value)
    && (st.buttonDisabled <==> st.sendPending)
  }

  /** `onOpen`: empty text, `default` selected, an enabled button. */
  function OnOpen(settings: Settings): (st: ModalState)
    ensures Valid(st) && st.open && !st.sendPending && st.notices == []
    ensures st.selectedProfileKey == DefaultProfileKey && st.text == ""
    ensures st.dropdown == ProfileOptions(settings)
    ensures st.buttonLabel == ButtonLabel(settings.multipleProfilesEnabled)
  {
    ModalState(ProfileOptions(settings), "", DefaultProfileKey,
               ButtonLabel(settings.multipleProfilesEnabled), false, false, true, [])
  }

  /** The user edits the text area. */
  function EditText(st: ModalState, text: string): (r: ModalState)
    ensures r.text == text
    ensures r.selectedProfileKey == st.selectedProfileKey && r.dropdown == st.dropdown
    ensures r.notices == st.notices && r.open == st.open
    ensures r.buttonLabel == st.buttonLabel && r.buttonDisabled == st.buttonDisabled
    ensures r.sendPending == st.sendPending
    ensures Valid(st) ==> Valid(r)
  {
    st.(text := text)
  }

  /** The dropdown's `onChange`: only a shown dropdown fires, and only with
      one of its values. The choice is announced in a notice. */
  function ChooseProfile(st: ModalState, value: string): (r: ModalState)
    requires st.dropdown.Some? && value in st.dropdown.value
    ensures r.selectedProfileKey == value
    ensures r.notices == st.notices + [value + " selected"]
    ensures r.text == st.text && r.dropdown == st.dropdown && r.open == st.open
    ensures r.buttonLabel == st.buttonLabel && r.buttonDisabled == st.buttonDisabled
    ensures r.sendPending == st.sendPending
    ensures Valid(st) ==> Valid(r)
  {
    st.(selectedProfileKey := value, notices := st.notices + [value + " selected"])
  }

  /** Whether the button's guard lets a send through: the text's JavaScript
      length, in UTF-16 code units, must exceed one. */
  predicate LongEnough(text: string)
  {
    Utf16Length(text) > 1
  }

  /** The guard in terms of characters: two or more always pass, none never
      does, and a single character passes only when it lies outside the
      Basic Multilingual Plane (JavaScript counts it twice). */
  lemma LongEnoughIff(text: string)
    ensures LongEnough(text) <==> |text| >= 2 || (|text| == 1 && text[0] as int >= 0x10000)
  {
  }

  /** A click on the send button. A disabled button does not fire; text too
      short is refused with a notice; otherwise the button shows it is
      sending and the timer starts. */
  function Click(st: ModalState): (r: ModalState)
    ensures st.buttonDisabled ==> r == st
    ensures Valid(st) && !st.buttonDisabled ==> (r.sendPending <==> LongEnough(st.text))
    ensures !st.buttonDisabled && !LongEnough(st.text) ==>
      r == st.(notices := st.notices + [EnterTextNotice])
    ensures r.sendPending && !st.sendPending ==>
      r.buttonDisabled && r.buttonLabel == SendingLabel && r.notices == st.notices
    ensures r.text == st.text && r.selectedProfileKey == st.selectedProfileKey
    ensures r.dropdown == st.dropdown && r.open == st.open
    ensures Valid(st) ==> Valid(r)
  {
    if st.buttonDisabled then st
    else if LongEnough(st.text) then
      st.(buttonLabel := SendingLabel, buttonDisabled := true, sendPending := true)
    else st.(notices := st.notices + [EnterTextNotice])
  }

  /** How `publishShortFormNote` settled: it threw, or it resolved with a
      success flag and the relays that accepted the note. */
  datatype PublishResponse = Threw | Resolved(success: bool, publishedRelays: seq<string>)

  /** The notices a publish result produces: on success one success notice
      and then one per relay in order; otherwise a single failure notice. */
  function ResultNotices(resp: PublishResponse): (ns: seq<string>)
    ensures resp.Resolved? && resp.success ==>
      |ns| == 1 + |resp.publishedRelays| && ns[0] == SuccessNotice &&
      forall k :: 0 <= k < |resp.publishedRelays| ==> ns[k + 1] == SentToPrefix + resp.publishedRelays[k]
    ensures !(resp.Resolved? && resp.success) ==> ns == [FailureNotice]
  {
    match resp
    case Resolved(true, relays) =>
      [SuccessNotice] + seq(|relays|, k requires 0 <= k < |relays| => SentToPrefix + relays[k])
    case _ => [FailureNotice]
  }

  /** The relays a reader of the notices learns about: the rest of every
      notice that starts with the "Sent to" prefix. */
  function RelaysAnnounced(ns: seq<string>): seq<string>
  {
    if |ns| == 0 then []
    else
      (if StartsWith(ns[0], SentToPrefix) then [ns[0][|SentToPrefix|..]] else [])
      + RelaysAnnounced(ns[1..])
  }

  lemma {:induction false} RelaysAnnouncedOfSentTo(relays: seq<string>)
    ensures RelaysAnnounced(seq(|relays|, k requires 0 <= k < |relays| => SentToPrefix + relays[k])) == relays
  {
    var ns := seq(|relays|, k requires 0 <= k < |relays| => SentToPrefix + relays[k]);
    if |relays| > 0 {
      assert ns[0][..|SentToPrefix|] == SentToPrefix;
      assert ns[0][|SentToPrefix|..] == relays[0];
      assert ns[1..] == seq(|relays[1..]|, k requires 0 <= k < |relays[1..]| => SentToPrefix + relays[1..][k]);
      RelaysAnnouncedOfSentTo(relays[1..]);
    }
  }

  /** The notices name exactly the accepting relays, in order: a success
      announces every published relay once, a failure or a throw none. */
  lemma ResultNoticesAnnounceRelays(resp: PublishResponse)
    ensures resp.Resolved? && resp.success ==> RelaysAnnounced(ResultNotices(resp)) == resp.publishedRelays
    ensures !(resp.Resolved? && resp.success) ==> RelaysAnnounced(ResultNotices(resp)) == []
  {
    var ns := ResultNotices(resp);
    if resp.Resolved? && resp.success {
      var relays := resp.publishedRelays;
      assert !StartsWith(SuccessNotice, SentToPrefix) by {
        assert SuccessNotice[0] != SentToPrefix[0];
      }
      assert ns[1..] == seq(|relays|, k requires 0 <= k < |relays| => SentToPrefix + relays[k]);
      RelaysAnnouncedOfSentTo(relays);
    } else {
      assert !StartsWith(FailureNotice, SentToPrefix) by {
        assert FailureNotice[0] != SentToPrefix[0];
      }
      assert ns[1..] == [];
    }
  }

  /** The arguments of the `publishShortFormNote` call. */
  datatype PublishCall = PublishCall(summary: string, profileKey: string)

  datatype SendStep = SendStep(call: PublishCall, next: ModalState)

  /** The timer fires: the text as it is now and the selected profile are
      published, the result's notices are shown, and then the text is
      cleared, the button re-enabled and the modal closed, whatever the
      result. */
  function Send(st: ModalState, resp: PublishResponse): (s: SendStep)
    requires st.sendPending
    ensures s.call == PublishCall(st.text, st.selectedProfileKey)
    ensures Valid(st) ==> s.call.profileKey == DefaultProfileKey || (st.dropdown.Some? && s.call.profileKey in st.dropdown.value)
    ensures st.dropdown.None? && Valid(st) ==> s.call.profileKey == DefaultProfileKey
    ensures s.next.notices == st.notices + ResultNotices(resp)
    ensures s.next.text == "" && !s.next.buttonDisabled && !s.next.sendPending && !s.next.open
    ensures s.next.buttonLabel == AfterSendLabel
    ensures s.next.selectedProfileKey == st.selectedProfileKey && s.next.dropdown == st.dropdown
    ensures Valid(st) ==> Valid(s.next)
  {
    SendStep(
      PublishCall(st.text, st.selectedProfileKey),
      st.(text := "", buttonLabel := AfterSendLabel, buttonDisabled := false, sendPending := false,
          open := false, notices := st.notices + ResultNotices(resp)))
  }

  /** Opening the modal, typing `text` and clicking: the timer starts exactly
      when the text is long enough, and a started send publishes that text
      under the `default` profile unless one was chosen. */
  lemma OpenTypeClick(settings: Settings, text: string, resp: PublishResponse)
    ensures Click(EditText(OnOpen(settings), text)).sendPending <==> LongEnough(text)
    ensures LongEnough(text) ==>
      Send(Click(EditText(OnOpen(settings), text)), resp).call == PublishCall(text, DefaultProfileKey)
    ensures !LongEnough(text) ==>
      Click(EditText(OnOpen(settings), text)).notices == [EnterTextNotice]
  {
  }

  /** Opening the modal, choosing profile `p` in its dropdown, typing `text`
      and clicking: the send that starts publishes that text under `p`. */
  lemma OpenChooseTypeClick(settings: Settings, p: string, text: string, resp: PublishResponse)
    requires ProfileOptions(settings).Some? && p in ProfileOptions(settings).value
    requires LongEnough(text)
    ensures Click(EditText(ChooseProfile(OnOpen(settings), p), text)).sendPending
    ensures Send(Click(EditText(ChooseProfile(OnOpen(settings), p), text)), resp).call == PublishCall(text, p)
  {
  }
}
