/**
 * The consent record that src/components/draggable-chat.tsx keeps in
 * localStorage under three keys, as functions over the storage map: what the
 * mount effect reads back (and clears), and what `handleConsent` and
 * `toggleDataSharing` write. The component's methods in DraggableChat update
 * the map key by key and are tied to these functions by their contracts.
 */
module Consent {
  import opened Wrappers
  import JsString

  const StatusKey := "dataConsentGiven"
  const TimestampKey := "dataConsentTimestamp"
  const EmailKey := "dataConsentEmail"
  const Keys: set<string> := {StatusKey, TimestampKey, EmailKey}

  /** localStorage: a missing key reads as null. */
  type Storage = map<string, string>

  /** `localStorage.getItem(k)` is truthy: present and not the empty string. */
  predicate Stored(s: Storage, k: string) {
    k in s && s[k] != ""
  }

  /** `isOnPlaace && currentUserEmail`: consent is bound to a known e-mail address. */
  predicate BindsEmail(isOnPlaace: bool, email: Option<string>) {
    isOnPlaace && JsString.Truthy(email)
  }

  /** The outcome of the consent-load effect: `hasConsented` (None for undefined) and the storage after it. */
  datatype Loaded = Loaded(consent: Option<bool>, storage: Storage)

  /** The consent-load effect (src/components/draggable-chat.tsx:108-139). */
  function Load(s: Storage, isOnPlaace: bool, email: Option<string>): (r: Loaded)
    // the storage is either left alone or loses exactly the three consent keys, and then consent is undefined
    ensures r.storage == s || r.storage == s - Keys
    ensures r.storage != s ==> r.consent.None?
    ensures r.storage != s <==>
              BindsEmail(isOnPlaace, email) && Stored(s, StatusKey) && Stored(s, TimestampKey)
              && Stored(s, EmailKey) && s[EmailKey] != email.value
    // a defined consent is read from a present status and timestamp, and is the status being "true"
    ensures r.consent.Some? ==>
              Stored(s, StatusKey) && Stored(s, TimestampKey) && r.consent.value == (s[StatusKey] == "true")
    // without an e-mail binding, status and timestamp decide alone
    ensures !BindsEmail(isOnPlaace, email) ==>
              (r.consent.Some? <==> Stored(s, StatusKey) && Stored(s, TimestampKey))
    // with one, the stored address must be present and equal to the current one
    ensures BindsEmail(isOnPlaace, email) ==>
              (r.consent.Some? <==> Stored(s, StatusKey) && Stored(s, TimestampKey)
                                    && Stored(s, EmailKey) && s[EmailKey] == email.value)
  {
    if BindsEmail(isOnPlaace, email) then
      if Stored(s, StatusKey) && Stored(s, TimestampKey) && Stored(s, EmailKey) then
        if s[EmailKey] == email.value then Loaded(Some(s[StatusKey] == "true"), s)
        else Loaded(None, s - Keys)
      else Loaded(None, s)
    else if Stored(s, StatusKey) && Stored(s, TimestampKey) then Loaded(Some(s[StatusKey] == "true"), s)
    else Loaded(None, s)
  }

  /** `consent.toString()` */
  function BoolString(b: bool): (t: string)
    ensures t == "true" <==> b
  {
    if b then "true" else "false"
  }

  /**
   * The consent modal's own write (src/components/consentModal.tsx:32) followed by
   * the storage part of `handleConsent` (src/components/draggable-chat.tsx:176-192);
   * `now` is `new Date().toISOString()`.
   */
  function Store(s: Storage, consent: bool, isOnPlaace: bool, email: Option<string>, now: string): (r: Storage)
    ensures r - Keys == s - Keys
    ensures consent ==> StatusKey in r && r[StatusKey] == "true" && TimestampKey in r && r[TimestampKey] == now
    ensures consent && BindsEmail(isOnPlaace, email) ==> EmailKey in r && r[EmailKey] == email.value
    ensures consent && !BindsEmail(isOnPlaace, email) ==> EmailKey !in r
    ensures !consent ==> r == s - Keys
  {
    var afterModal := s[StatusKey := BoolString(consent)];
    if consent then
      var stamped := afterModal[StatusKey := "true"][TimestampKey := now];
      if BindsEmail(isOnPlaace, email) then stamped[EmailKey := email.value] else stamped - {EmailKey}
    else
      afterModal - {StatusKey} - {TimestampKey} - {EmailKey}
  }

  /** `toggleDataSharing` turning sharing off (src/components/draggable-chat.tsx:230-233). */
  function SharingOff(s: Storage): (r: Storage)
    ensures StatusKey in r && r[StatusKey] == "false"
    ensures forall k :: k != StatusKey ==> (k in r <==> k in s) && (k in s ==> r[k] == s[k])
  {
    s[StatusKey := "false"]
  }

  /** Consent given and then read back, in the same setting, is consent true; the storage is kept. */
  lemma ConsentReadBack(s: Storage, isOnPlaace: bool, email: Option<string>, now: string)
    requires now != ""
    ensures var stored := Store(s, true, isOnPlaace, email, now);
            Load(stored, isOnPlaace, email) == Loaded(Some(true), stored)
  {
    var stored := Store(s, true, isOnPlaace, email, now);
    assert Stored(stored, StatusKey) && Stored(stored, TimestampKey);
  }

  /** Declining leaves nothing behind: consent is undefined in every later setting. */
  lemma DeclineForgets(s: Storage, isOnPlaace: bool, email: Option<string>, now: string,
                       laterOnPlaace: bool, laterEmail: Option<string>)
    ensures var stored := Store(s, false, isOnPlaace, email, now);
            Load(stored, laterOnPlaace, laterEmail) == Loaded(None, stored)
  {
    var stored := Store(s, false, isOnPlaace, email, now);
    assert StatusKey !in stored;
  }

  /** Consent given for one address is not carried over to another: it is cleared on the next load. */
  lemma ConsentNotCarriedOver(s: Storage, a: string, b: string, now: string)
    requires a != "" && b != "" && a != b && now != ""
    ensures var stored := Store(s, true, true, Some(a), now);
            Load(stored, true, Some(b)) == Loaded(None, stored - Keys)
            && Load(stored - Keys, true, Some(b)) == Loaded(None, stored - Keys)
  {
    var stored := Store(s, true, true, Some(a), now);
    assert Stored(stored, StatusKey) && Stored(stored, TimestampKey) && Stored(stored, EmailKey);
    assert StatusKey !in stored - Keys;
  }

  /**
   * Consent given before the address is known stores no address, so once the
   * address is known it no longer counts, and the record is kept as it is.
   */
  lemma ConsentBeforeEmailIgnored(s: Storage, email: string, now: string)
    requires email != ""
    ensures var stored := Store(s, true, true, None, now);
            Load(stored, true, Some(email)) == Loaded(None, stored)
  {
    var stored := Store(s, true, true, None, now);
    assert EmailKey !in stored;
  }

  /** Consent bound to an address still counts where no address is known. */
  lemma BoundConsentReadUnbound(s: Storage, email: string, now: string)
    requires email != "" && now != ""
    ensures var stored := Store(s, true, true, Some(email), now);
            Load(stored, true, None) == Loaded(Some(true), stored)
            && Load(stored, false, Some(email)) == Loaded(Some(true), stored)
  {
    var stored := Store(s, true, true, Some(email), now);
    assert Stored(stored, StatusKey) && Stored(stored, TimestampKey);
  }

  /** Running the load effect a second time changes neither the storage nor the outcome. */
  lemma LoadIdempotent(s: Storage, isOnPlaace: bool, email: Option<string>)
    ensures var r := Load(s, isOnPlaace, email);
            Load(r.storage, isOnPlaace, email) == r
  {
    var r := Load(s, isOnPlaace, email);
    if r.storage != s {
      assert StatusKey !in r.storage;
    }
  }

  /** Turning sharing off is read back as consent false, wherever a consent was readable. */
  lemma SharingOffReadBack(s: Storage, isOnPlaace: bool, email: Option<string>)
    requires Load(s, isOnPlaace, email).consent.Some?
    ensures Load(SharingOff(s), isOnPlaace, email) == Loaded(Some(false), SharingOff(s))
  {
    var off := SharingOff(s);
    assert Stored(off, StatusKey) && Stored(off, TimestampKey);
    assert Stored(s, EmailKey) ==> Stored(off, EmailKey) && off[EmailKey] == s[EmailKey];
  }
}
