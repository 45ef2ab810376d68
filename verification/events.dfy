/** Event construction of `NostrService`: the key pair derived by the
    constructor, the tag list and kind-1 event built by `publishNote`, its
    hash and signature, and the value `publishNote` resolves to. */
module Events {
  import opened Wrappers
  import opened Hashtags
  import opened Keys

  /** A NIP-01 tag: a list of strings whose first element names it. */
  type Tag = seq<string>

  /** The `d` tag every note carries; the same constant on every call. */
  const IdentifierTag: Tag := ["d", "vvv9438js"]

  /** Kind 1, a short text note in NIP-01. */
  const TextNoteKind: int := 1

  function TopicTag(word: string): Tag { ["t", word] }

  function TitleTag(title: string): Tag { ["title", title] }

  /** The unsigned event of NIP-01 (the template plus `pubkey`); `pubkey` is
      absent when the service never derived a key. */
  datatype UnsignedEvent = UnsignedEvent(
    kind: int,
    createdAt: int,
    tags: seq<Tag>,
    content: string,
    pubkey: Option<string>)

  /** The unsigned fields together with `id` and `sig`. */
  datatype SignedEvent = SignedEvent(event: UnsignedEvent, id: string, sig: string)

  /** The nostr-tools calls the service makes, left uninterpreted; `None`
      stands for a call that throws. */
  datatype Crypto = Crypto(
    eventHash: UnsignedEvent -> Option<string>,
    signature: (UnsignedEvent, Option<string>) -> Option<string>,
    publicKeyOf: string -> Option<string>,
    nip19: Nip19Decoder)

  /** What a constructed `NostrService` holds: its keys and whether a relay
      was initialised (and with which URL). */
  datatype Service = Service(privateKey: Option<string>, publicKey: Option<string>, relay: Option<string>)

  /** The key-pair invariant: a public key exists exactly when a private key
      does, and it is the one derived from it. */
  predicate KeysConsistent(svc: Service, crypto: Crypto)
  {
    match svc.privateKey
    case None => svc.publicKey.None?
    case Some(k) => svc.publicKey.Some? && crypto.publicKeyOf(k) == svc.publicKey
  }

  /** The constructor's key derivation. Without a private key setting it
      returns early with no keys and no relay; otherwise the setting is
      normalised, the public key derived from it and the relay initialised.
      A failing decode or derivation throws out of the constructor. */
  function NewService(relayUrl: string, privateKeySetting: string, crypto: Crypto): (r: Result<Service, KeyError>)
    ensures privateKeySetting == "" ==> r == Ok(Service(None, None, None))
    ensures r.Ok? ==> KeysConsistent(r.value, crypto)
    ensures r.Ok? ==> (r.value.relay == Some(relayUrl) <==> privateKeySetting != "")
    ensures r.Ok? && privateKeySetting != "" ==>
      r.value.privateKey.Some? && Ok(r.value.privateKey.value) == ConvertKeyToHex(privateKeySetting, crypto.nip19)
    ensures r.Err? <==>
      (privateKeySetting != "" &&
       (ConvertKeyToHex(privateKeySetting, crypto.nip19).Err? ||
        crypto.publicKeyOf(ConvertKeyToHex(privateKeySetting, crypto.nip19).value).None?))
  {
    if privateKeySetting == "" then Ok(Service(None, None, None))
    else
      var privateKey :- ConvertKeyToHex(privateKeySetting, crypto.nip19);
      match crypto.publicKeyOf(privateKey)
      case None => Err(InvalidSecretKey(privateKey))
      case Some(publicKey) => Ok(Service(Some(privateKey), Some(publicKey), Some(relayUrl)))
  }

  function TopicTags(words: seq<string>): (tags: seq<Tag>)
    ensures |tags| == |words|
    ensures forall k :: 0 <= k < |words| ==> tags[k] == TopicTag(words[k])
  {
    seq(|words|, k requires 0 <= k < |words| => TopicTag(words[k]))
  }

  /** The tag list of a note: the identifier tag, one `t` tag per hashtag of
      the content in order, then the title taken from the file's base name. */
  function BuildTags(content: string, basename: string): (tags: seq<Tag>)
    ensures |tags| == 2 + |Scan(content)|
    ensures tags[0] == IdentifierTag
    ensures tags[|tags| - 1] == TitleTag(basename)
  {
    [IdentifierTag] + TopicTags(Scan(content)) + [TitleTag(basename)]
  }

  /** `Math.floor(nowMs / 1000)`: the whole seconds of a millisecond clock. */
  function Seconds(nowMs: int): (secs: int)
    ensures secs * 1000 <= nowMs < secs * 1000 + 1000
  {
    nowMs / 1000
  }

  /** The unsigned event `publishNote` builds; none for empty content (the
      only falsy string). */
  function BuildEvent(svc: Service, content: string, basename: string, nowMs: int): (r: Option<UnsignedEvent>)
    ensures r.None? <==> content == ""
    ensures r.Some? ==> r.value.kind == TextNoteKind && r.value.content == content
    ensures r.Some? ==> r.value.pubkey == svc.publicKey
    ensures r.Some? ==> r.value.createdAt * 1000 <= nowMs < r.value.createdAt * 1000 + 1000
    ensures r.Some? ==> r.value.tags == BuildTags(content, basename)
  {
    if content == "" then None
    else Some(UnsignedEvent(TextNoteKind, Seconds(nowMs), BuildTags(content, basename), content, svc.publicKey))
  }

  /** The value the promise of `publishNote` settles with: `undefined`,
      a boolean, or a rejection. */
  datatype NoteResult = Undefined | Returned(value: bool) | Rejected

  /** The settled value and the signed event handed to the relay, if it was
      handed over without an exception. */
  datatype Publication = Publication(result: NoteResult, sent: Option<SignedEvent>)

  /** `publishNote`. The hash is computed before the `try`, so a throwing
      hash rejects the promise; a throwing signature or dispatch is caught
      and yields `false`. Otherwise the result is `true` whatever the relay
      answers later: the `ok`/`failed` callbacks' return values are
      discarded, so the relay's reply is no input here. Without a relay,
      `this.relay?.publish` does nothing and the result is still `true`. */
  function PublishNote(svc: Service, content: string, basename: string, nowMs: int,
                       crypto: Crypto, dispatchThrows: bool): (p: Publication)
    ensures p.result == Undefined <==> content == ""
    ensures p.result == Rejected <==> content != "" && crypto.eventHash(BuildEvent(svc, content, basename, nowMs).value).None?
    ensures p.result == Returned(true) <==>
      content != "" &&
      var ev := BuildEvent(svc, content, basename, nowMs).value;
      crypto.eventHash(ev).Some? && crypto.signature(ev, svc.privateKey).Some? &&
      !(svc.relay.Some? && dispatchThrows)
    ensures p.sent.Some? <==> p.result == Returned(true) && svc.relay.Some?
    ensures p.sent.Some? ==>
      var ev := p.sent.value.event;
      Some(ev) == BuildEvent(svc, content, basename, nowMs) &&
      Some(p.sent.value.id) == crypto.eventHash(ev) &&
      Some(p.sent.value.sig) == crypto.signature(ev, svc.privateKey)
  {
    match BuildEvent(svc, content, basename, nowMs)
    case None => Publication(Undefined, None)
    case Some(ev) =>
      match crypto.eventHash(ev)
      case None => Publication(Rejected, None)
      case Some(id) =>
        match crypto.signature(ev, svc.privateKey)
        case None => Publication(Returned(false), None)
        case Some(sig) =>
          if svc.relay.None? then Publication(Returned(true), None)
          else if dispatchThrows then Publication(Returned(false), None)
          else Publication(Returned(true), Some(SignedEvent(ev, id, sig)))
  }

  /** A topic tag read back: exactly two elements, the first `t`. */
  predicate IsTopicTag(tag: Tag)
  {
    |tag| == 2 && tag[0] == "t"
  }

  /** The topics a reader of a tag list finds, in order. */
  function Topics(tags: seq<Tag>): seq<string>
  {
    if |tags| == 0 then []
    else (if IsTopicTag(tags[0]) then [tags[0][1]] else []) + Topics(tags[1..])
  }

  /** The first `title` tag's value, as a reader of the tag list finds it. */
  function Title(tags: seq<Tag>): Option<string>
  {
    if |tags| == 0 then None
    else if |tags[0]| == 2 && tags[0][0] == "title" then Some(tags[0][1])
    else Title(tags[1..])
  }

  lemma {:induction false} TopicsConcat(a: seq<Tag>, b: seq<Tag>)
    ensures Topics(a + b) == Topics(a) + Topics(b)
  {
    if |a| > 0 {
      assert (a + b)[1..] == a[1..] + b;
      TopicsConcat(a[1..], b);
    } else {
      assert a + b == b;
    }
  }

  lemma {:induction false} TopicsOfTopicTags(words: seq<string>)
    ensures Topics(TopicTags(words)) == words
  {
    if |words| > 0 {
      var tags := TopicTags(words);
      assert tags[1..] == TopicTags(words[1..]);
      TopicsOfTopicTags(words[1..]);
    }
  }

  lemma {:induction false} TitleSkipsTopics(words: seq<string>, rest: seq<Tag>)
    ensures Title(TopicTags(words) + rest) == Title(rest)
  {
    if |words| > 0 {
      var tags := TopicTags(words);
      assert (tags + rest)[0] == TopicTag(words[0]);
      assert (tags + rest)[1..] == TopicTags(words[1..]) + rest;
      TitleSkipsTopics(words[1..], rest);
    } else {
      assert TopicTags(words) + rest == rest;
    }
  }

  /** Reading the built tag list back recovers what went in: its topics are
      the content's hashtags, in order and with duplicates, and its title is
      the base name. */
  lemma BuildTagsReadBack(content: string, basename: string)
    ensures Topics(BuildTags(content, basename)) == Scan(content)
    ensures Title(BuildTags(content, basename)) == Some(basename)
  {
    var words := Scan(content);
    var middle := TopicTags(words);
    var tags := BuildTags(content, basename);
    assert tags == [IdentifierTag] + (middle + [TitleTag(basename)]);
    TopicsConcat([IdentifierTag], middle + [TitleTag(basename)]);
    TopicsConcat(middle, [TitleTag(basename)]);
    TopicsOfTopicTags(words);
    assert Topics([TitleTag(basename)]) == [];
    assert tags[1..] == middle + [TitleTag(basename)];
    TitleSkipsTopics(words, [TitleTag(basename)]);
  }

  /** The event handed to the relay reads back as the note: its content,
      its hashtags in order and its title. */
  lemma SentEventReadBack(svc: Service, content: string, basename: string, nowMs: int,
                          crypto: Crypto, dispatchThrows: bool)
    requires PublishNote(svc, content, basename, nowMs, crypto, dispatchThrows).sent.Some?
    ensures var ev := PublishNote(svc, content, basename, nowMs, crypto, dispatchThrows).sent.value.event;
      ev.content == content && Topics(ev.tags) == Scan(content) && Title(ev.tags) == Some(basename)
  {
    BuildTagsReadBack(content, basename);
  }

  /** The hashtags of the worked note `Hello #nostr #test`. */
  lemma ScanHelloNostrTest()
    ensures Scan("Hello #nostr #test") == ["nostr", "test"]
  {
    var hello, nostr, test := "Hello ", "nostr", "test";
    assert IsHashtag(nostr) && IsHashtag(test);
    ScanEmptyIff(hello);
    ScanOneTag(nostr, [' ']);
    ScanOneTag(test, []);
    var a, b := ['#'] + nostr + [' '], ['#'] + test + [];
    ScanConcat(a, b);
    ScanConcat(hello, a + b);
    assert hello + (a + b) == "Hello #nostr #test";
  }

  /** A worked note: `Hello #nostr #test` gets the identifier tag, a topic
      tag for each hashtag, and the title. */
  lemma HelloNostrTest(basename: string)
    ensures BuildTags("Hello #nostr #test", basename)
         == [IdentifierTag, ["t", "nostr"], ["t", "test"], TitleTag(basename)]
  {
    ScanHelloNostrTest();
    var words := Scan("Hello #nostr #test");
    assert TopicTags(words) == [["t", "nostr"], ["t", "test"]];
  }

  /** The identifier tag does not identify the document: any two notes sent
      carry the same one. */
  lemma IdentifierShared(svc: Service, c1: string, b1: string, t1: int,
                         c2: string, b2: string, t2: int, crypto: Crypto, d1: bool, d2: bool)
    requires PublishNote(svc, c1, b1, t1, crypto, d1).sent.Some?
    requires PublishNote(svc, c2, b2, t2, crypto, d2).sent.Some?
    ensures PublishNote(svc, c1, b1, t1, crypto, d1).sent.value.event.tags[0]
         == PublishNote(svc, c2, b2, t2, crypto, d2).sent.value.event.tags[0]
         == IdentifierTag
  {
  }
}
