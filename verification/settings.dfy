/** The plugin settings and `loadSettings`: `Object.assign({}, defaults,
    stored)`, where stored fields override defaults and absent ones keep them. */
module PluginSettings {
  import opened Wrappers

  /** A configured alternate identity; only its nickname is used here. */
  datatype Profile = Profile(profileNickname: string)

  datatype Settings = Settings(
    privateKey: string,
    shortFormEnabled: bool,
    statusBarEnabled: bool,
    relayConfigEnabled: bool,
    relayURLs: seq<string>,
    multipleProfilesEnabled: bool,
    profiles: seq<Profile>)

  const DefaultRelayUrls: seq<string> := [
    "wss://nos.lol",
    "wss://relay.damus.io",
    "wss://relay.nostr.band",
    "wss://relayable.org",
    "wss://nostr.rocks",
    "wss://nostr.fmt.wiz.biz"
  ]

  const Defaults: Settings := Settings("", false, true, false, DefaultRelayUrls, false, [])

  /** The object `loadData` resolves to, field by field; `None` is a field
      the stored object does not have. */
  datatype StoredData = StoredData(
    privateKey: Option<string>,
    shortFormEnabled: Option<bool>,
    statusBarEnabled: Option<bool>,
    relayConfigEnabled: Option<bool>,
    relayURLs: Option<seq<string>>,
    multipleProfilesEnabled: Option<bool>,
    profiles: Option<seq<Profile>>)

  const NoFields: StoredData := StoredData(None, None, None, None, None, None, None)

  /** `Object.assign(target, source)`: every field `source` has overwrites
      the target's; the others are left alone. */
  function Assign(target: Settings, source: StoredData): (r: Settings)
    ensures source.privateKey.Some? ==> r.privateKey == source.privateKey.value
    ensures source.privateKey.None? ==> r.privateKey == target.privateKey
    ensures source.shortFormEnabled.Some? ==> r.shortFormEnabled == source.shortFormEnabled.value
    ensures source.shortFormEnabled.None? ==> r.shortFormEnabled == target.shortFormEnabled
    ensures source.statusBarEnabled.Some? ==> r.statusBarEnabled == source.statusBarEnabled.value
    ensures source.statusBarEnabled.None? ==> r.statusBarEnabled == target.statusBarEnabled
    ensures source.relayConfigEnabled.Some? ==> r.relayConfigEnabled == source.relayConfigEnabled.value
    ensures source.relayConfigEnabled.None? ==> r.relayConfigEnabled == target.relayConfigEnabled
    ensures source.relayURLs.Some? ==> r.relayURLs == source.relayURLs.value
    ensures source.relayURLs.None? ==> r.relayURLs == target.relayURLs
    ensures source.multipleProfilesEnabled.Some? ==> r.multipleProfilesEnabled == source.multipleProfilesEnabled.value
    ensures source.multipleProfilesEnabled.None? ==> r.multipleProfilesEnabled == target.multipleProfilesEnabled
    ensures source.profiles.Some? ==> r.profiles == source.profiles.value
    ensures source.profiles.None? ==> r.profiles == target.profiles
  {
    Settings(
      source.privateKey.GetOr(target.privateKey),
      source.shortFormEnabled.GetOr(target.shortFormEnabled),
      source.statusBarEnabled.GetOr(target.statusBarEnabled),
      source.relayConfigEnabled.GetOr(target.relayConfigEnabled),
      source.relayURLs.GetOr(target.relayURLs),
      source.multipleProfilesEnabled.GetOr(target.multipleProfilesEnabled),
      source.profiles.GetOr(target.profiles))
  }

  /** `loadSettings`: the defaults overridden by whatever `loadData` found;
      a `null` result (nothing stored yet) is skipped by `Object.assign`. */
  function LoadSettings(stored: Option<StoredData>): (r: Settings)
    ensures stored.None? ==> r == Defaults
    ensures var d := stored.GetOr(NoFields);
      && (d.privateKey.Some? ==> r.privateKey == d.privateKey.value)
      && (d.privateKey.None? ==> r.privateKey == Defaults.privateKey)
      && (d.shortFormEnabled.Some? ==> r.shortFormEnabled == d.shortFormEnabled.value)
      && (d.shortFormEnabled.None? ==> r.shortFormEnabled == Defaults.shortFormEnabled)
      && (d.statusBarEnabled.Some? ==> r.statusBarEnabled == d.statusBarEnabled.value)
      && (d.statusBarEnabled.None? ==> r.statusBarEnabled == Defaults.statusBarEnabled)
      && (d.relayConfigEnabled.Some? ==> r.relayConfigEnabled == d.relayConfigEnabled.value)
      && (d.relayConfigEnabled.None? ==> r.relayConfigEnabled == Defaults.relayConfigEnabled)
      && (d.relayURLs.Some? ==> r.relayURLs == d.relayURLs.value)
      && (d.relayURLs.None? ==> r.relayURLs == Defaults.relayURLs)
      && (d.multipleProfilesEnabled.Some? ==> r.multipleProfilesEnabled == d.multipleProfilesEnabled.value)
      && (d.multipleProfilesEnabled.None? ==> r.multipleProfilesEnabled == Defaults.multipleProfilesEnabled)
      && (d.profiles.Some? ==> r.profiles == d.profiles.value)
      && (d.profiles.None? ==> r.profiles == Defaults.profiles)
  {
    match stored
    case None => Defaults
    case Some(data) => Assign(Defaults, data)
  }

  /** `saveSettings`: every field of the settings is written, so the saved
      object overrides any settings it is assigned onto. */
  function SaveSettings(s: Settings): (d: StoredData)
    ensures forall target :: Assign(target, d) == s
  {
    StoredData(Some(s.privateKey), Some(s.shortFormEnabled), Some(s.statusBarEnabled),
               Some(s.relayConfigEnabled), Some(s.relayURLs), Some(s.multipleProfilesEnabled),
               Some(s.profiles))
  }

  /** Two sources applied one after the other, as one: the later one's
      fields win. */
  function Merge(first: StoredData, second: StoredData): StoredData
  {
    StoredData(
      if second.privateKey.Some? then second.privateKey else first.privateKey,
      if second.shortFormEnabled.Some? then second.shortFormEnabled else first.shortFormEnabled,
      if second.statusBarEnabled.Some? then second.statusBarEnabled else first.statusBarEnabled,
      if second.relayConfigEnabled.Some? then second.relayConfigEnabled else first.relayConfigEnabled,
      if second.relayURLs.Some? then second.relayURLs else first.relayURLs,
      if second.multipleProfilesEnabled.Some? then second.multipleProfilesEnabled else first.multipleProfilesEnabled,
      if second.profiles.Some? then second.profiles else first.profiles)
  }

  /** Nothing stored, or an empty object stored: the defaults, with the six
      default relays, the status bar on and the private key empty. */
  lemma LoadWithoutData()
    ensures LoadSettings(None) == LoadSettings(Some(NoFields)) == Defaults
    ensures |LoadSettings(None).relayURLs| == 6
    ensures LoadSettings(None).statusBarEnabled && LoadSettings(None).privateKey == ""
    ensures !LoadSettings(None).shortFormEnabled && !LoadSettings(None).multipleProfilesEnabled
  {
  }

  /** Saved settings load back unchanged, whatever the defaults. */
  lemma LoadAfterSave(s: Settings)
    ensures LoadSettings(Some(SaveSettings(s))) == s
  {
  }

  /** Last writer wins: assigning two sources in turn is assigning their
      merge, so a field present in the later source always prevails. */
  lemma AssignLastWriterWins(target: Settings, first: StoredData, second: StoredData)
    ensures Assign(Assign(target, first), second) == Assign(target, Merge(first, second))
  {
  }
}
