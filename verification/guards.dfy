/** The publish guards of the plugin's main class: `isEmptyContent`,
    `checkAndPublish`, and the click handler of the short-form ribbon icon.
    Each is an ordered chain of checks ending in one notice or one modal. */
module Guards {
  import opened Wrappers
  import opened JsText

  const MissingKeyNotice := "Please set your private key in the Nostr Writer Plugin settings before publishing."
  const EmptyNoteNotice := "The note is empty and cannot be published."
  const NotConnectedNotice := "Please connect to Nostr before publishing."
  const NoActiveFileNotice := "No note is currently active. Click into a note."

  datatype Modal = ConfirmPublishModal | ShortFormModal

  /** What a guard chain does: whether it read the active file, whether it
      asked the service for its connection status, the notices it showed and
      the modal it opened. */
  datatype Effects = Effects(fileRead: bool, statusQueried: bool, notices: seq<string>, modal: Option<Modal>)

  /** A chain ends in exactly one user-visible outcome. */
  predicate OneOutcome(e: Effects)
  {
    (|e.notices| == 1 && e.modal.None?) || (|e.notices| == 0 && e.modal.Some?)
  }

  /** `isEmptyContent`: `content.trim() === ""`, which holds exactly when
      every character is JavaScript whitespace (so for `""` too). */
  function IsEmptyContent(content: string): (empty: bool)
    ensures empty <==> AllWhitespace(content)
  {
    TrimEmptyIffAllWhitespace(content);
    Trim(content) == ""
  }

  /** `checkAndPublish`. `activeFile` is the text the vault read returns for
      the active note, `None` when no note is active; `connected` is what the
      service's connection status reports. */
  function CheckAndPublish(privateKey: string, activeFile: Option<string>, connected: bool): (e: Effects)
    ensures OneOutcome(e)
    ensures privateKey == "" ==> e == Effects(false, false, [MissingKeyNotice], None)
    ensures e.fileRead <==> privateKey != "" && activeFile.Some?
    ensures privateKey != "" && activeFile.None? ==> e.notices == [NoActiveFileNotice]
    ensures privateKey != "" && activeFile.Some? && AllWhitespace(activeFile.value) ==>
      e.notices == [EmptyNoteNotice] && !e.statusQueried
    ensures e.statusQueried <==> privateKey != "" && activeFile.Some? && !AllWhitespace(activeFile.value)
    ensures e.statusQueried && !connected ==> e.notices == [NotConnectedNotice]
    ensures e.modal == Some(ConfirmPublishModal) <==>
      privateKey != "" && activeFile.Some? && !AllWhitespace(activeFile.value) && connected
    ensures e.modal != Some(ShortFormModal)
  {
    if privateKey == "" then Effects(false, false, [MissingKeyNotice], None)
    else match activeFile
      case None => Effects(false, false, [NoActiveFileNotice], None)
      case Some(content) =>
        if IsEmptyContent(content) then Effects(true, false, [EmptyNoteNotice], None)
        else if connected then Effects(true, true, [], Some(ConfirmPublishModal))
        else Effects(true, true, [NotConnectedNotice], None)
  }

  /** The click handler of the short-form ribbon icon: the key is checked
      before the connection, and the short-form modal opens only when both
      pass. No file is read. */
  function ShortFormClick(privateKey: string, connected: bool): (e: Effects)
    ensures OneOutcome(e) && !e.fileRead
    ensures e.statusQueried <==> privateKey != ""
    ensures privateKey == "" ==> e.notices == [MissingKeyNotice]
    ensures privateKey != "" && !connected ==> e.notices == [NotConnectedNotice]
    ensures e.modal == Some(ShortFormModal) <==> privateKey != "" && connected
    ensures e.modal != Some(ConfirmPublishModal)
  {
    if privateKey == "" then Effects(false, false, [MissingKeyNotice], None)
    else if connected then Effects(false, true, [], Some(ShortFormModal))
    else Effects(false, true, [NotConnectedNotice], None)
  }

  /** Every way `checkAndPublish` can refuse shows its own notice: the four
      refusals are told apart by their message. */
  lemma RefusalsDistinct(k1: string, f1: Option<string>, c1: bool, k2: string, f2: Option<string>, c2: bool)
    requires CheckAndPublish(k1, f1, c1).modal.None? && CheckAndPublish(k2, f2, c2).modal.None?
    requires CheckAndPublish(k1, f1, c1).notices == CheckAndPublish(k2, f2, c2).notices
    ensures k1 == "" <==> k2 == ""
    ensures k1 != "" ==> (f1.None? <==> f2.None?)
    ensures k1 != "" && f1.Some? && f2.Some? ==> (AllWhitespace(f1.value) <==> AllWhitespace(f2.value))
  {
  }
}
