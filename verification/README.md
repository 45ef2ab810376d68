# Nostr Writer: publish logic in Dafny

This project models the decision and string logic of the Nostr Writer Obsidian
plugin. The plugin publishes notes from an Obsidian vault as signed events on the
Nostr network. The model covers:

- **Event construction** (`NostrService.publishNote`). Empty content builds
  nothing. Otherwise the note gets an ordered tag list: the fixed identifier tag
  `["d","vvv9438js"]`, then one `["t", word]` per hashtag found by `/#\w+/g`,
  then `["title", basename]`. The event is a kind-1 text note in the shape
  NIP-01 gives it. It is then hashed, signed and handed to the relay.
- **Key handling.** The constructor derives the key pair. `convertKeyToHex`
  decodes NIP-19 `nsec` and `npub` strings. `getEnvVar` decodes only `nsec`
  and returns any other set value, `npub` included, unchanged.
- **The blank-content test** `isEmptyContent`, a predicate that
  `checkAndPublish` uses.
- **Guard chains** in the plugin class. These are `checkAndPublish` and the
  click on the short-form ribbon icon. Each chain ends in exactly one notice
  or one modal.
- **Presence toggles** `updateRibbonIcon` and `updateStatusBar`.
- **Settings loading.** `loadSettings` merges the stored data over the
  defaults.
- **The short-note modal.** This covers the profile dropdown, the length
  guard on the send button, the publish call and the notices its result
  produces.

Every operation is a pure function over immutable datatypes.

The foreign nostr-tools calls are `getEventHash`, `getSignature`,
`getPublicKey` and `nip19.decode`. They enter as function-valued parameters
(`Events.Crypto`, `Keys.Nip19Decoder`), and `None` stands for a call that
throws. Four more inputs are also parameters:

- the clock (`nowMs`);
- the environment (`map<string, string>`);
- the text the vault read returns;
- the connection status and the result of `publishShortFormNote`.

The modules are:

- `Wrappers`: `Option` and `Result`.
- `JsText`: the JavaScript `\w` class, the whitespace `trim` removes, UTF-16
  `length` and `startsWith`.
- `Hashtags`: the hashtag scan.
- `Keys`: key normalisation.
- `Events`: the constructor's keys, tags, events and `publishNote`.
- `PluginSettings`: loading and saving settings.
- `Guards`: the publish guards.
- `Toggles`: the ribbon icon and status bar.
- `ShortForm`: the short-note modal.

Behaviour of the code that the model keeps as written:

- The identifier tag is the constant `vvv9438js` on every call, so it
  identifies no document. The code's own comment says it should be unique;
  the model follows the code.
- The event kind is 1 (a text note), not a long-form kind.
- Empty content makes `publishNote` return `undefined`. It does not raise an
  error.
- `getEventHash` runs outside the `try`. If it throws, the promise is
  rejected. If signing or dispatch throws, the result is `false`.
- The relay's `ok`/`failed` reply cannot change the result. Those callbacks'
  return values are discarded, so `publishNote` returns `true` once dispatch
  does not throw. It also returns `true` when no relay was initialised.
- The short-note guard is `length > 1` on JavaScript's UTF-16 length. A
  single letter is refused. A single emoji outside the Basic Multilingual Plane
  is accepted.
- The short-note timer re-reads the text area when it fires. So the text that
  is published is the text at that moment, not the text that passed the guard.
- After a send, the button label becomes `Confirm and Publish`. This differs
  from its initial label.

## Model

| member | source | states |
|---|---|---|
| JsText.Trim | main.ts:184 | `trim()` keeps a contiguous middle part of the text: everything dropped before and after it is whitespace, and the result neither starts nor ends with whitespace |
| JsText.TrimStart | main.ts:184 | the result is a suffix of the input; everything dropped is whitespace, and the result does not start with whitespace |
| JsText.TrimEnd | main.ts:184 | the result is a prefix of the input; everything dropped is whitespace, and the result does not end with whitespace |
| JsText.TrimEmptyIffAllWhitespace | main.ts:183-185 | `trim()` yields the empty string exactly when every character is JavaScript whitespace |
| JsText.Utf16Length | src/ShortFormModal.ts:68 | the JavaScript length of a string is between its character count and twice that count |
| Guards.IsEmptyContent | main.ts:183-185 | a note is empty exactly when all its characters are whitespace, the empty note included |
| Guards.CheckAndPublish | main.ts:187-214 | exactly one outcome. A missing key gives the key notice, with no file read and no status query. No active file, empty content and no connection each give their own notice. The confirm modal opens exactly when the key is set, a file is active, its content is not blank and the connection is up |
| Guards.ShortFormClick | main.ts:222-241 | the key is checked before the connection, and the status is queried only when a key is set. Exactly one outcome; the short-form modal opens exactly when both checks pass |
| Guards.RefusalsDistinct | main.ts:188-213 | two refusals with the same notice have the same cause: the notices tell the four refusals apart |
| Hashtags.RunLength | src/nostr/NostrService.ts:85 | `\w+` is greedy: the run consists of word characters and ends at a non-word character or at the end of the text |
| Hashtags.WordAt | src/nostr/NostrService.ts:85-87 | the hashtag of a match is non-empty, consists of word characters, and is the text right after the `#` |
| Hashtags.Scan | src/nostr/NostrService.ts:85-87 | every hashtag `content.match(/#\w+/g)` yields, with the `#` stripped, is a non-empty run of `[A-Za-z0-9_]` |
| Hashtags.ScanFrom | src/nostr/NostrService.ts:85-87 | every hashtag the global match reports is a non-empty run of `[A-Za-z0-9_]` |
| Hashtags.ScanFromIsOccurrences | src/nostr/NostrService.ts:85-87 | the regular-expression scan, which resumes after each match, equals the reference that examines every position separately. No `#` followed by a word character is missed |
| Hashtags.ScanIsOccurrences | src/nostr/NostrService.ts:85-87 | the hashtags of a text are exactly its `#\w` occurrences, left to right |
| Hashtags.ScanEmptyIff | src/nostr/NostrService.ts:85-86 | no tag is found exactly when no `#` is followed by a word character; `#` alone, `# ` and `#-` give nothing |
| Hashtags.ScanConcat | src/nostr/NostrService.ts:85-92 | hashtags are reported in text order: when `a` ends in a non-word character other than `#`, the tags of `a + b` are those of `a` followed by those of `b` |
| Hashtags.ScanOneTag | src/nostr/NostrService.ts:85-87 | `#w`, alone or followed by one non-word character, yields exactly `[w]`, with the `#` stripped |
| Hashtags.ScanLeadingTag | src/nostr/NostrService.ts:85-87 | a leading `#w` followed by any text that starts with neither a word character nor `#` yields `w` first and then exactly the hashtags of that text |
| Hashtags.DuplicatesKept | src/nostr/NostrService.ts:85-92 | a hashtag written twice is reported twice |
| Keys.Decode | src/nostr/NostrService.ts:148-153 | a decode failure is an error naming the value; otherwise the result is the decoder's payload |
| Keys.ConvertKeyToHex | src/nostr/NostrService.ts:146-156 | an `nsec`- or `npub`-prefixed value is replaced by its decoded payload; every other value, including the empty one, is returned unchanged |
| Keys.HexKeyUnchanged | src/nostr/NostrService.ts:146-156 | a raw hex key is returned unchanged, whatever the decoder does |
| Keys.GetEnvVar | src/nostr/NostrService.ts:158-168 | a missing or empty variable raises the not-found error and nothing else does. An `nsec` value is decoded; any other value is returned as it is |
| Keys.EnvVarAgreesWithConvert | src/nostr/NostrService.ts:146-168 | for a set variable that is not `npub`-prefixed, `getEnvVar` normalises exactly like `convertKeyToHex` |
| Keys.EnvVarKeepsNpub | src/nostr/NostrService.ts:151-167 | an `npub` value is returned encoded by `getEnvVar` but decoded by `convertKeyToHex` |
| Events.NewService | src/nostr/NostrService.ts:22-39 | without a key setting there are no keys and no relay. Otherwise the private key is the normalised setting, the public key is derived from it, and the relay is initialised. The constructor throws exactly when decoding or derivation fails |
| Events.TopicTags | src/nostr/NostrService.ts:89-92 | one `["t", word]` per hashtag, in the same order |
| Events.BuildTags | src/nostr/NostrService.ts:81-96 | the list starts with the constant identifier tag and ends with the title tag, and holds exactly 2 plus the number of hashtags |
| Events.BuildTagsReadBack | src/nostr/NostrService.ts:81-96 | reading the tag list back gives the content's hashtags, in order with duplicates, and the base name as the title |
| Events.Seconds | src/nostr/NostrService.ts:100 | `floor(nowMs / 1000)`: the whole seconds of the millisecond clock, for negative clocks too |
| Events.BuildEvent | src/nostr/NostrService.ts:77-109 | empty content builds no event. Otherwise the event has kind 1, the content verbatim, the service's public key, the clock in seconds and the tag list built above |
| Events.PublishNote | src/nostr/NostrService.ts:77-144 | `undefined` exactly for empty content; a rejection exactly when hashing throws. `true` exactly when hashing and signing succeed and dispatch does not throw. The event handed to the relay carries `id = hash(event)` and `sig = sign(event, privateKey)` |
| Events.SentEventReadBack | src/nostr/NostrService.ts:81-123 | the event handed to the relay carries the note's content verbatim, its hashtags in order and its base name as the title |
| Events.ScanHelloNostrTest | src/nostr/NostrService.ts:85-87 | the text `Hello #nostr #test` has the hashtags `nostr` and `test`, in that order |
| Events.HelloNostrTest | src/nostr/NostrService.ts:81-96 | the note `Hello #nostr #test` gets exactly the identifier tag, `["t","nostr"]`, `["t","test"]` and the title tag |
| Events.IdentifierShared | src/nostr/NostrService.ts:81-83 | any two notes sent carry the same first tag, the constant identifier tag |
| PluginSettings.LoadSettings | main.ts:156-177 | with nothing stored the settings are the defaults; otherwise each field present in the stored data is taken from it and each absent field keeps its default |
| PluginSettings.SaveSettings | main.ts:179-181 | the saved data holds every field, so assigning it onto any settings object yields exactly the saved settings |
| PluginSettings.Assign | main.ts:157-176 | each field the stored object has overrides; each absent field keeps the earlier value |
| PluginSettings.LoadWithoutData | main.ts:156-177 | with nothing stored, or with an empty object, the settings are the defaults. These include the six default relays, the status bar on and an empty private key |
| PluginSettings.LoadAfterSave | main.ts:156-181 | saved settings load back unchanged |
| PluginSettings.AssignLastWriterWins | main.ts:157-176 | assigning two sources in turn equals assigning their merge, in which the later source wins |
| Toggles.Toggle | main.ts:216-268 | the element is present exactly when enabled. An existing element is kept while enabled; a new one appears only when none existed |
| Toggles.UpdateRibbonIcon | main.ts:216-248 | the icon is present exactly when short form is enabled, and nothing else changes. An enabled setting with an icon, or a disabled one without, leaves the state unchanged |
| Toggles.UpdateStatusBar | main.ts:250-268 | the same four-case toggle for the status bar item, driven by `statusBarEnabled` |
| Toggles.RibbonIdempotent | main.ts:216-248 | updating the ribbon icon twice equals updating it once |
| Toggles.StatusBarIdempotent | main.ts:250-268 | updating the status bar twice equals updating it once |
| Toggles.TogglesCommute | main.ts:216-268 | the two updates touch disjoint state, so their order does not matter |
| Toggles.RibbonRunConverges | main.ts:216-248 | after any sequence of setting switches, each followed by an update, the icon is present exactly when the last setting is on. While the setting stays on, an existing icon is never replaced |
| ShortForm.ButtonLabel | src/ShortFormModal.ts:64 | the label is the profile variant exactly when multiple profiles are enabled |
| ShortForm.ProfileOptions | src/ShortFormModal.ts:40-48 | the dropdown is shown exactly when profiles exist and multiple profiles are enabled. Its options are `default` and then every nickname in configured order |
| ShortForm.OnOpen | src/ShortFormModal.ts:24-64 | the modal opens with empty text, `default` selected, an enabled button, the dropdown of `ProfileOptions` and the label of `ButtonLabel` |
| ShortForm.EditText | src/ShortFormModal.ts:27-29 | typing changes only the text: the selected key, dropdown, notices, button and open state are kept, and so is the modal's invariant |
| ShortForm.ChooseProfile | src/ShortFormModal.ts:50-54 | the chosen option becomes the selected key and is announced; the key stays one of the dropdown's options; the text, dropdown, button and open state are kept |
| ShortForm.LongEnoughIff | src/ShortFormModal.ts:68 | the `length > 1` guard passes for two or more characters. It fails for none. For one character it passes only when that character lies outside the Basic Multilingual Plane |
| ShortForm.Click | src/ShortFormModal.ts:66-104 | a disabled button does nothing. Text that is too short adds exactly the "Please enter text" notice and starts no send. Otherwise the button disables, shows "Sending..." and the send starts. The text, selected key, dropdown and open state are kept, so the send uses what was typed and chosen |
| ShortForm.ResultNotices | src/ShortFormModal.ts:78-94 | a success gives one success notice and then one "Sent to" notice per published relay, in order. A failure or a throw gives exactly one failure notice |
| ShortForm.ResultNoticesAnnounceRelays | src/ShortFormModal.ts:78-94 | the notices name exactly the published relays, in order, on success, and name none otherwise |
| ShortForm.Send | src/ShortFormModal.ts:70-101 | the publish call gets exactly the current text and the selected profile key, which is `default` unless a dropdown offered it; the key and dropdown survive the send. Whatever the result, the text is then cleared, the button re-enabled and the modal closed |
| ShortForm.OpenTypeClick | src/ShortFormModal.ts:39-104 | open, type, click: the send starts exactly when the text is long enough, and then publishes that text under `default`. Otherwise the only notice is "Please enter text" |
| ShortForm.OpenChooseTypeClick | src/ShortFormModal.ts:39-104 | open, choose a profile from the dropdown, type long enough text, click: the send starts and publishes that text under the chosen profile |

## Left out

- Relay networking: `relayInit`, `relay.connect`, the `connect()` method,
  `relay.publish`, and the `connect`/`error`/`ok`/`failed` callbacks
  (src/nostr/NostrService.ts:36-71, 123-134). These are asynchronous I/O. Only
  whether dispatch throws enters the model.
- The services called but not defined in main.ts, src/nostr/NostrService.ts
  or src/ShortFormModal.ts: `connectedRelays`,
  `connectToRelays`, `shutdownRelays`, `getConnectionStatus` and
  `publishShortFormNote`. Their results are plain inputs to the model. It has
  no multi-relay fan-out, connection pool or published-event log, because no
  source for them is part of this model.
- The three-argument constructor call at main.ts:153 does not match the
  constructor at src/nostr/NostrService.ts:22. The model follows the latter.
- Cryptography: `getEventHash`, `getSignature`, `getPublicKey` and
  `nip19.decode` are foreign library code. They are uninterpreted parameters,
  and the model does not reimplement SHA-256, Schnorr signatures or bech32.
- Environment and files: `dotenv`, the plugin base path, `process.env` and
  `app.vault.read`. Their values are parameters.
- Time: `Date.now()` is a parameter. The 500 ms `setTimeout` delays between
  notices are dropped; only the order in which the notices are scheduled is
  kept. The 3000 ms timer of the short-note send is not dropped: it is the gap
  between the `Click` and `Send` steps, during which the text and the profile
  may still change.
- Obsidian UI: the published and reader views, command and ribbon
  registration, the public-key and clipboard commands, `onunload`, CSS,
  `setAttributes` and the status bar's click listener. Of these, only the
  presence of the ribbon icon and status bar item, the notice texts, the
  button label and state, and whether a modal opened enter the model.
- `ConfirmPublishModal` and the settings tab are not part of this model. Only
  the opening of the confirm modal is recorded.
- Profiles carry only their nickname. The model uses no other profile field.
- Console logging.
- PluginSettings.Assign: each stored field is assumed to have the type of the
  matching setting, and extra stored fields are ignored. `Object.assign` would
  copy any JSON value and any extra key.
- PluginSettings.LoadSettings: inherits the typing assumption of `Assign`;
  a stored value of the wrong type or an extra stored key is not modelled.
