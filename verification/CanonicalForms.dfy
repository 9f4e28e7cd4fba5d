/** The six canonical encodings of the messaging contract: what each accepts, the normal form
    that it writes down, and the bytes of that form. */
module CanonicalForms {
  import opened Wrappers
  import opened Unicode
  import opened Json
  import opened JsonNumbers
  import opened Validators
  import opened Ordering
  import opened Base64Url

  datatype Member = Member(accountId: Text, deviceId: Text, signatureKey: Text, identityHash: Text)

  datatype Transition = Transition(operationId: Text, rosterHash: Text)

  /** The normal forms. */
  datatype Form =
    | Receipt(directoryLabel: Text, fingerprint: Text, entryCount: Float, headHash: Option<Text>, issuedAt: Text, expiresAt: Text)
    | Aad(threadId: Text, senderAccountId: Text, senderDeviceId: Text, envelopeId: Text, kind: Text, epoch: Text,
          transition: Option<Transition>)
    | TransferDevice(accountId: Text, deviceId: Text, platform: Text, displayName: Text, credential: Text,
                     signatureKey: Text, identityKey: Text, capabilities: seq<Text>)
    | Roster(members: seq<Member>)
    | Registration(challengeId: Text, challenge: Text, accountId: Text, deviceId: Text, platform: Text, displayName: Text,
                   credential: Text, signatureKey: Text, identityKey: Text, identitySignature: Text, capabilities: seq<Text>)
    | Authorization(accountId: Text, deviceId: Text, platform: Text, displayName: Text, credential: Text,
                    signatureKey: Text, capabilities: seq<Text>)

  // ---------- the arrays that are printed ----------

  const RECEIPT_TAG: Text := Lit("VOLNA-CHAT-KEY-DIRECTORY-RECEIPT")
  const AAD_TAG: Text := Lit("VOLNA-CHAT-AAD")
  const TRANSFER_TAG: Text := Lit("VOLNA-CHAT-TRANSFER-DEVICE")
  const ROSTER_TAG: Text := Lit("VOLNA-CHAT-MLS-ROSTER")
  const REGISTRATION_TAG: Text := Lit("VOLNA-CHAT-DEVICE-REGISTRATION")
  const AUTHORIZATION_TAG: Text := Lit("VOLNA-CHAT-DEVICE-AUTHORIZATION")
  const DIRECTORY_ISSUER: Text := Lit("volna_directory_v1")

  function OrNull(t: Option<Text>): Value {
    match t
    case None => Null
    case Some(s) => Str(s)
  }

  function Strings(ts: seq<Text>): (r: seq<Value>)
    ensures |r| == |ts| && forall i :: 0 <= i < |r| ==> r[i] == Str(ts[i])
  {
    seq(|ts|, i requires 0 <= i < |ts| => Str(ts[i]))
  }

  function MemberValue(m: Member): Value {
    Arr(Strings([m.accountId, m.deviceId, m.signatureKey, m.identityHash]))
  }

  function MemberValues(ms: seq<Member>): (r: seq<Value>)
    ensures |r| == |ms| && forall i :: 0 <= i < |r| ==> r[i] == MemberValue(ms[i])
  {
    seq(|ms|, i requires 0 <= i < |ms| => MemberValue(ms[i]))
  }

  function FormItems(f: Form): seq<Value> {
    match f
    case Receipt(directoryLabel, fingerprint, entryCount, headHash, issuedAt, expiresAt) =>
      [Str(RECEIPT_TAG), Num(ONE), Str(DIRECTORY_ISSUER), Str(directoryLabel), Str(fingerprint), Num(entryCount), OrNull(headHash),
       Str(issuedAt), Str(expiresAt)]
    case Aad(threadId, senderAccountId, senderDeviceId, envelopeId, kind, epoch, transition) =>
      [Str(AAD_TAG), Num(ONE), Str(threadId), Str(senderAccountId), Str(senderDeviceId), Str(envelopeId), Str(kind), Str(epoch),
       OrNull(if transition.None? then None else Some(transition.value.operationId)),
       OrNull(if transition.None? then None else Some(transition.value.rosterHash))]
    case TransferDevice(accountId, deviceId, platform, displayName, credential, signatureKey, identityKey, capabilities) =>
      [Str(TRANSFER_TAG), Num(ONE), Str(accountId), Str(deviceId), Str(platform), Str(displayName), Str(credential),
       Str(signatureKey), Str(identityKey), Arr(Strings(capabilities))]
    case Roster(members) =>
      [Str(ROSTER_TAG), Num(ONE), Arr(MemberValues(members))]
    case Registration(challengeId, challenge, accountId, deviceId, platform, displayName, credential, signatureKey, identityKey,
                      identitySignature, capabilities) =>
      [Str(REGISTRATION_TAG), Num(ONE), Str(challengeId), Str(challenge), Str(accountId), Str(deviceId), Str(platform),
       Str(displayName), Str(credential), Str(signatureKey), Str(identityKey), Str(identitySignature), Arr(Strings(capabilities))]
    case Authorization(accountId, deviceId, platform, displayName, credential, signatureKey, capabilities) =>
      [Str(AUTHORIZATION_TAG), Num(ONE), Str(accountId), Str(deviceId), Str(platform), Str(displayName), Str(credential),
       Str(signatureKey), Arr(Strings(capabilities))]
  }

  /** The canonical text of a normal form; the receipt is its UTF-8 bytes. */
  function CanonicalText(f: Form): Text { Print(Arr(FormItems(f))) }

  // ---------- shared checks ----------

  const IOS: Text := Lit("ios")
  const ANDROID: Text := Lit("android")
  const WEB: Text := Lit("web")
  const APPLICATION: Text := Lit("APPLICATION")
  const COMMIT: Text := Lit("COMMIT")

  const MAX_CREDENTIAL := 8 * 1024
  const MAX_SIGNATURE_KEY := 256
  const MAX_SIGNATURE := 512
  const MAX_MEMBERS := 16
  const MAX_ENTRIES: real := 64.0

  function AsPlatform(v: Value, code: string): Outcome<Text> {
    if v.Str? && v.s in {IOS, ANDROID, WEB} then Ok(v.s) else Fail(code)
  }

  function AsDisplayName(v: Value, code: string): Outcome<Text> {
    var raw :- AsText(v, 80, code);
    if Trim(raw) == [] then Fail(code) else Ok(Trim(raw))
  }

  function AsTexts(items: seq<Value>, maxLength: nat, code: string): Outcome<seq<Text>> {
    if items == [] then Ok([])
    else
      var init :- AsTexts(items[..|items| - 1], maxLength, code);
      var last :- AsText(items[|items| - 1], maxLength, code);
      Ok(init + [last])
  }

  predicate IsCapabilityList(v: Value) { v.Arr? && 0 < |v.items| <= 16 }

  /** [...new Set(list)].sort() */
  function SortedSet(ts: seq<Text>): seq<Text> { Sort(TextLeq, Distinct(ts)) }

  function AsCapabilities(v: Value, listCode: string, itemCode: string): Outcome<seq<Text>> {
    if !IsCapabilityList(v) then Fail(listCode)
    else
      var ts :- AsTexts(v.items, 80, itemCode);
      Ok(SortedSet(ts))
  }

  /** A property that may be absent or null. */
  predicate IsMissing(v: Value) { v.Undefined? || v.Null? }

  function AsOptionalId(v: Value, code: string): Outcome<Option<Text>> {
    if IsMissing(v) then Ok(None)
    else
      var id :- AsId(v, code);
      Ok(Some(id))
  }

  function AsHash(v: Value, code: string): Outcome<Text> {
    if v.Str? && IsHash(v.s) then Ok(v.s) else Fail(code)
  }

  function AsOptionalHash(v: Value, code: string): Outcome<Option<Text>> {
    if IsMissing(v) then Ok(None)
    else
      var hash :- AsHash(v, code);
      Ok(Some(hash))
  }

  function AsHeadHash(v: Value): Outcome<Option<Text>> {
    if v.Null? then Ok(None)
    else
      var hash :- AsHash(v, "directory_receipt_checkpoint");
      Ok(Some(hash))
  }

  /** Zero, or digits without a leading zero, at most twenty. */
  predicate IsEpoch(s: Text) {
    0 < |s| <= 20 && DigitsAt(s, 0, |s|) && (|s| == 1 || s[0] != 0x30)
  }

  /** A whole number from zero to the largest directory. */
  predicate IsEntryCount(v: Value) {
    v.Num? && (v.x.Zero? || v.x.point >= |v.x.digits|) && InRange(v, 0.0, MAX_ENTRIES)
  }

  function AsIsoDate(isoDate: Text -> Option<Text>, v: Value): Outcome<Text> {
    if v.Str? && IsIsoDate(v.s) && isoDate(v.s).Some? then Ok(isoDate(v.s).value) else Fail("directory_receipt_date")
  }

  // ---------- property names ----------

  const K_ACCOUNT_ID: Text := Lit("accountId")
  const K_ACCOUNT_IDENTITY_KEY_HASH: Text := Lit("accountIdentityKeyHash")
  const K_ACCOUNT_IDENTITY_PUBLIC_KEY: Text := Lit("accountIdentityPublicKey")
  const K_ACCOUNT_IDENTITY_SIGNATURE: Text := Lit("accountIdentitySignature")
  const K_CAPABILITIES: Text := Lit("capabilities")
  const K_CHALLENGE: Text := Lit("challenge")
  const K_CHALLENGE_ID: Text := Lit("challengeId")
  const K_CHECKPOINT: Text := Lit("checkpoint")
  const K_CLIENT_ENVELOPE_ID: Text := Lit("clientEnvelopeId")
  const K_CREDENTIAL: Text := Lit("credential")
  const K_DEVICE_ID: Text := Lit("deviceId")
  const K_DIRECTORY_LABEL: Text := Lit("directoryLabel")
  const K_DISPLAY_NAME: Text := Lit("displayName")
  const K_ENTRY_COUNT: Text := Lit("entryCount")
  const K_EPOCH: Text := Lit("epoch")
  const K_EXPIRES_AT: Text := Lit("expiresAt")
  const K_HEAD_HASH: Text := Lit("headHash")
  const K_IDENTITY_FINGERPRINT: Text := Lit("identityFingerprint")
  const K_ISSUED_AT: Text := Lit("issuedAt")
  const K_ISSUER: Text := Lit("issuer")
  const K_KIND: Text := Lit("kind")
  const K_OPERATION_ID: Text := Lit("operationId")
  const K_PLATFORM: Text := Lit("platform")
  const K_PROTOCOL_VERSION: Text := Lit("protocolVersion")
  const K_ROSTER_HASH: Text := Lit("rosterHash")
  const K_SENDER_ACCOUNT_ID: Text := Lit("senderAccountId")
  const K_SENDER_DEVICE_ID: Text := Lit("senderDeviceId")
  const K_SIGNATURE_PUBLIC_KEY: Text := Lit("signaturePublicKey")
  const K_THREAD_ID: Text := Lit("threadId")
  const K_VERSION: Text := Lit("version")

  // ---------- the six normalisers ----------

  /** canonicalKeyDirectorySnapshotReceipt. `isoDate` is new Date(text).toISOString(), where that is a date. */
  function NormalizeReceipt(isoDate: Text -> Option<Text>, input: Value): Outcome<Form> {
    var receipt :- AsObject(input, "directory_receipt");
    :- Need(OnlyKeys(receipt, {K_VERSION, K_ISSUER, K_CHECKPOINT, K_ISSUED_AT, K_EXPIRES_AT}), "directory_receipt_keys");
    :- Need(Get(receipt, K_VERSION) == Num(ONE) && Get(receipt, K_ISSUER) == Str(DIRECTORY_ISSUER), "directory_receipt");
    var checkpoint :- AsObject(Get(receipt, K_CHECKPOINT), "directory_receipt_checkpoint");
    :- Need(OnlyKeys(checkpoint, {K_VERSION, K_DIRECTORY_LABEL, K_IDENTITY_FINGERPRINT, K_ENTRY_COUNT, K_HEAD_HASH}), "directory_receipt_checkpoint_keys");
    :- Need(Get(checkpoint, K_VERSION) == Num(ONE), "directory_receipt_checkpoint");
    var directoryLabel :- AsHash(Get(checkpoint, K_DIRECTORY_LABEL), "directory_receipt_checkpoint");
    var fingerprint :- AsHash(Get(checkpoint, K_IDENTITY_FINGERPRINT), "directory_receipt_checkpoint");
    var count := Get(checkpoint, K_ENTRY_COUNT);
    :- Need(IsEntryCount(count), "directory_receipt_checkpoint");
    var headHash :- AsHeadHash(Get(checkpoint, K_HEAD_HASH));
    :- Need(count.x.Zero? == headHash.None?, "directory_receipt_checkpoint");
    var issuedAt :- AsIsoDate(isoDate, Get(receipt, K_ISSUED_AT));
    var expiresAt :- AsIsoDate(isoDate, Get(receipt, K_EXPIRES_AT));
    Ok(Receipt(directoryLabel, fingerprint, count.x, headHash, issuedAt, expiresAt))
  }

  /** normalizeEnvelopeAad */
  function NormalizeAad(input: Value): Outcome<Form> {
    var aad :- AsObject(input, "aad");
    :- Need(OnlyKeys(aad, {K_PROTOCOL_VERSION, K_THREAD_ID, K_SENDER_ACCOUNT_ID, K_SENDER_DEVICE_ID,
                           K_CLIENT_ENVELOPE_ID, K_KIND, K_EPOCH, K_OPERATION_ID, K_ROSTER_HASH}), "aad_keys");
    :- Need(Get(aad, K_PROTOCOL_VERSION) == Num(ONE), "aad_version");
    var kind := Get(aad, K_KIND);
    :- Need(kind == Str(APPLICATION) || kind == Str(COMMIT), "aad_kind");
    var epoch := Get(aad, K_EPOCH);
    :- Need(epoch.Str? && IsEpoch(epoch.s), "aad_epoch");
    var operationId :- AsOptionalId(Get(aad, K_OPERATION_ID), "aad_operation_id");
    var rosterHash :- AsOptionalHash(Get(aad, K_ROSTER_HASH), "aad_roster_hash");
    :- Need(kind == Str(COMMIT) || (operationId.None? && rosterHash.None?), "aad_application_transition");
    :- Need(kind == Str(APPLICATION) || (operationId.Some? && rosterHash.Some?), "aad_commit_transition");
    var threadId :- AsId(Get(aad, K_THREAD_ID), "aad_thread_id");
    var accountId :- AsId(Get(aad, K_SENDER_ACCOUNT_ID), "aad_sender_account_id");
    var deviceId :- AsId(Get(aad, K_SENDER_DEVICE_ID), "aad_sender_device_id");
    var envelopeId :- AsId(Get(aad, K_CLIENT_ENVELOPE_ID), "aad_client_envelope_id");
    Ok(Aad(threadId, accountId, deviceId, envelopeId, kind.s, epoch.s,
           if operationId.None? then None else Some(Transition(operationId.value, rosterHash.value))))
  }

  /** normalizeTransferDeviceDraft */
  function NormalizeTransferDevice(input: Value): Outcome<Form> {
    var draft :- AsObject(input, "transfer_device_draft");
    :- Need(OnlyKeys(draft, {K_ACCOUNT_ID, K_DEVICE_ID, K_PLATFORM, K_DISPLAY_NAME, K_CREDENTIAL,
                             K_SIGNATURE_PUBLIC_KEY, K_ACCOUNT_IDENTITY_PUBLIC_KEY, K_CAPABILITIES}), "transfer_device_draft_keys");
    var platform :- AsPlatform(Get(draft, K_PLATFORM), "transfer_device_platform");
    var displayName :- AsDisplayName(Get(draft, K_DISPLAY_NAME), "transfer_device_display_name");
    :- Need(IsCapabilityList(Get(draft, K_CAPABILITIES)), "transfer_device_capabilities");
    var accountId :- AsId(Get(draft, K_ACCOUNT_ID), "transfer_account_id");
    var deviceId :- AsId(Get(draft, K_DEVICE_ID), "transfer_device_id");
    var credential :- AsBase64Url(Get(draft, K_CREDENTIAL), MAX_CREDENTIAL, "transfer_device_credential");
    var signatureKey :- AsBase64Url(Get(draft, K_SIGNATURE_PUBLIC_KEY), MAX_SIGNATURE_KEY, "transfer_device_signature_key");
    var identityKey :- AsBase64Url(Get(draft, K_ACCOUNT_IDENTITY_PUBLIC_KEY), MAX_SIGNATURE_KEY, "transfer_account_identity_key");
    var capabilities :- AsCapabilities(Get(draft, K_CAPABILITIES), "transfer_device_capabilities", "transfer_device_capability");
    Ok(TransferDevice(accountId, deviceId, platform, displayName, credential, signatureKey, identityKey, capabilities))
  }

  /** canonicalDeviceRegistrationProof */
  function NormalizeRegistration(input: Value): Outcome<Form> {
    var proof :- AsObject(input, "device_proof");
    :- Need(OnlyKeys(proof, {K_CHALLENGE_ID, K_CHALLENGE, K_ACCOUNT_ID, K_DEVICE_ID, K_PLATFORM,
                             K_DISPLAY_NAME, K_CREDENTIAL, K_SIGNATURE_PUBLIC_KEY, K_ACCOUNT_IDENTITY_PUBLIC_KEY,
                             K_ACCOUNT_IDENTITY_SIGNATURE, K_CAPABILITIES}), "device_proof_keys");
    var platform :- AsPlatform(Get(proof, K_PLATFORM), "device_platform");
    var displayName :- AsDisplayName(Get(proof, K_DISPLAY_NAME), "device_display_name");
    var capabilities :- AsCapabilities(Get(proof, K_CAPABILITIES), "device_capabilities", "device_capability");
    var challengeId :- AsId(Get(proof, K_CHALLENGE_ID), "device_challenge_id");
    var challenge :- AsBase64Url(Get(proof, K_CHALLENGE), 64, "device_challenge");
    var accountId :- AsId(Get(proof, K_ACCOUNT_ID), "device_account_id");
    var deviceId :- AsId(Get(proof, K_DEVICE_ID), "device_id");
    var credential :- AsBase64Url(Get(proof, K_CREDENTIAL), MAX_CREDENTIAL, "device_credential");
    var signatureKey :- AsBase64Url(Get(proof, K_SIGNATURE_PUBLIC_KEY), MAX_SIGNATURE_KEY, "device_signature_key");
    var identityKey :- AsBase64Url(Get(proof, K_ACCOUNT_IDENTITY_PUBLIC_KEY), MAX_SIGNATURE_KEY, "account_identity_key");
    var identitySignature :- AsBase64Url(Get(proof, K_ACCOUNT_IDENTITY_SIGNATURE), MAX_SIGNATURE, "account_identity_signature");
    Ok(Registration(challengeId, challenge, accountId, deviceId, platform, displayName, credential, signatureKey, identityKey,
                    identitySignature, capabilities))
  }

  /** canonicalDeviceAuthorization */
  function NormalizeAuthorization(input: Value): Outcome<Form> {
    var device :- AsObject(input, "device_authorization");
    :- Need(OnlyKeys(device, {K_ACCOUNT_ID, K_DEVICE_ID, K_PLATFORM, K_DISPLAY_NAME, K_CREDENTIAL,
                              K_SIGNATURE_PUBLIC_KEY, K_CAPABILITIES}), "device_authorization_keys");
    var platform :- AsPlatform(Get(device, K_PLATFORM), "device_platform");
    var displayName :- AsDisplayName(Get(device, K_DISPLAY_NAME), "device_display_name");
    var capabilities :- AsCapabilities(Get(device, K_CAPABILITIES), "device_capabilities", "device_capability");
    var accountId :- AsId(Get(device, K_ACCOUNT_ID), "device_account_id");
    var deviceId :- AsId(Get(device, K_DEVICE_ID), "device_id");
    var credential :- AsBase64Url(Get(device, K_CREDENTIAL), MAX_CREDENTIAL, "device_credential");
    var signatureKey :- AsBase64Url(Get(device, K_SIGNATURE_PUBLIC_KEY), MAX_SIGNATURE_KEY, "device_signature_key");
    Ok(Authorization(accountId, deviceId, platform, displayName, credential, signatureKey, capabilities))
  }

  function NormalizeMember(input: Value): Outcome<Member> {
    var member :- AsObject(input, "mls_roster_member");
    :- Need(OnlyKeys(member, {K_ACCOUNT_ID, K_DEVICE_ID, K_SIGNATURE_PUBLIC_KEY, K_ACCOUNT_IDENTITY_KEY_HASH}), "mls_roster_member_keys");
    var signatureKey := Get(member, K_SIGNATURE_PUBLIC_KEY);
    :- Need(signatureKey.Str? && DecodedLength(signatureKey.s, "") == Ok(32), "mls_roster_signature_key");
    var identityHash := Get(member, K_ACCOUNT_IDENTITY_KEY_HASH);
    :- Need(identityHash.Str? && DecodedLength(identityHash.s, "") == Ok(32), "mls_roster_identity_hash");
    var accountId :- AsId(Get(member, K_ACCOUNT_ID), "mls_roster_account_id");
    var deviceId :- AsId(Get(member, K_DEVICE_ID), "mls_roster_device_id");
    Ok(Member(accountId, deviceId, signatureKey.s, identityHash.s))
  }

  function NormalizeMembers(items: seq<Value>): (r: Outcome<seq<Member>>)
    ensures r.Ok? ==> |r.value| == |items|
  {
    if items == [] then Ok([])
    else
      var init :- NormalizeMembers(items[..|items| - 1]);
      var last :- NormalizeMember(items[|items| - 1]);
      Ok(init + [last])
  }

  predicate DistinctDevices(ms: seq<Member>) {
    forall i, j :: 0 <= i < j < |ms| ==> ms[i].deviceId != ms[j].deviceId
  }

  function ByDevice(leq: (Text, Text) -> bool): (Member, Member) -> bool {
    (m: Member, n: Member) => leq(m.deviceId, n.deviceId)
  }

  /** canonicalMlsRoster. `leq` is the order of localeCompare on device identifiers. */
  function NormalizeRoster(leq: (Text, Text) -> bool, input: Value): Outcome<Form> {
    var sized := input.Arr? && 0 < |input.items| <= MAX_MEMBERS;
    :- Need(sized, "mls_roster");
    var members :- NormalizeMembers(input.items);
    var sorted := Sort(ByDevice(leq), members);
    :- Need(DistinctDevices(sorted), "mls_roster_duplicate");
    Ok(Roster(sorted))
  }
}
