/**
 * The repository ships the call button three times: src/index.js,
 * midpilot.js and src/components/ChatButton.tsx. They agree on the icon for
 * every state but one.
 */
module Variants {
  import Call
  import IndexWidget
  import Midpilot
  import ChatButton

  /** While at most one of the two flags is set, all three buttons show the same icon. */
  lemma IconsAgreeOffOverlap(isCalling: bool, isConnecting: bool)
    requires !(isCalling && isConnecting)
    ensures IndexWidget.ButtonLook(isCalling, isConnecting).icon == Midpilot.ButtonLook(isCalling, isConnecting).icon
    ensures Midpilot.ButtonLook(isCalling, isConnecting).icon == ChatButton.ButtonIcon(isConnecting, isCalling)
  {
  }

  /** With both flags set the scripts show the hang-up icon and the React button shows the loader. */
  lemma PrecedenceDiffers()
    ensures IndexWidget.ButtonLook(true, true).icon == Call.PhoneOff
    ensures Midpilot.ButtonLook(true, true).icon == Call.PhoneOff
    ensures ChatButton.ButtonIcon(true, true) == Call.Loader
  {
  }
}
