/** Key normalisation of `NostrService`: NIP-19 (bech32) encoded keys are
    decoded, everything else passes through. */
module Keys {
  import opened Wrappers
  import opened JsText

  /** Why no key could be produced; each stands for an exception. */
  datatype KeyError =
    | Nip19DecodeFailed(value: string)
    | EnvVarNotFound(name: string)
    | InvalidSecretKey(key: string)

  /** `nip19.decode(value).data` of nostr-tools: the payload of a NIP-19
      string, or `None` where the decoder throws. Left uninterpreted. */
  type Nip19Decoder = string -> Option<string>

  predicate IsNsec(value: string) { StartsWith(value, "nsec") }

  predicate IsNpub(value: string) { StartsWith(value, "npub") }

  function Decode(value: string, decode: Nip19Decoder): (r: Result<string, KeyError>)
    ensures r.Err? <==> decode(value).None?
    ensures r.Err? ==> r.error == Nip19DecodeFailed(value)
    ensures r.Ok? ==> Some(r.value) == decode(value)
  {
    match decode(value)
    case Some(data) => Ok(data)
    case None => Err(Nip19DecodeFailed(value))
  }

  /** `convertKeyToHex`: a value starting with `nsec` or `npub` is replaced
      by its decoded payload; any other value, the empty one included, is
      returned as it is. */
  function ConvertKeyToHex(value: string, decode: Nip19Decoder): (r: Result<string, KeyError>)
    ensures !IsNsec(value) && !IsNpub(value) ==> r == Ok(value)
    ensures IsNsec(value) || IsNpub(value) ==> r == Decode(value, decode)
  {
    if value != "" && IsNsec(value) then Decode(value, decode)
    else if value != "" && IsNpub(value) then Decode(value, decode)
    else Ok(value)
  }

  predicate IsHexDigit(c: char)
  {
    ('0' <= c <= '9') || ('a' <= c <= 'f') || ('A' <= c <= 'F')
  }

  /** A raw hex key never looks like a NIP-19 string, so it is returned
      unchanged, whatever the decoder does. */
  lemma HexKeyUnchanged(value: string, decode: Nip19Decoder)
    requires forall i :: 0 <= i < |value| ==> IsHexDigit(value[i])
    ensures ConvertKeyToHex(value, decode) == Ok(value)
  {
    if |value| >= 4 {
      assert value[..4][0] == value[0];
    }
  }

  /** `getEnvVar`: the value of `process.env[name]`, decoded when it starts
      with `nsec`; a missing or empty variable throws. A value starting with
      `npub` is not decoded here. */
  function GetEnvVar(env: map<string, string>, name: string, decode: Nip19Decoder): (r: Result<string, KeyError>)
    ensures r == Err(EnvVarNotFound(name)) <==> name !in env || env[name] == ""
    ensures name in env && IsNsec(env[name]) ==> r == Decode(env[name], decode)
    ensures name in env && env[name] != "" && !IsNsec(env[name]) ==> r == Ok(env[name])
  {
    var value := if name in env then env[name] else "";
    if value != "" && IsNsec(value) then Decode(value, decode)
    else if value == "" then Err(EnvVarNotFound(name))
    else Ok(value)
  }

  /** For a set variable that is not an `npub` value, reading it through
      `getEnvVar` normalises it exactly as `convertKeyToHex` would. */
  lemma EnvVarAgreesWithConvert(env: map<string, string>, name: string, decode: Nip19Decoder)
    requires name in env && env[name] != "" && !IsNpub(env[name])
    ensures GetEnvVar(env, name, decode) == ConvertKeyToHex(env[name], decode)
  {
  }

  /** The two readers part ways on `npub` values: `getEnvVar` returns the
      encoded string while `convertKeyToHex` decodes it. */
  lemma EnvVarKeepsNpub(env: map<string, string>, name: string, decode: Nip19Decoder)
    requires name in env && IsNpub(env[name])
    ensures GetEnvVar(env, name, decode) == Ok(env[name])
    ensures ConvertKeyToHex(env[name], decode) == Decode(env[name], decode)
  {
  }
}
