/** Which error an input of the canonical encodings is refused with: that of the first rule that it breaks. */
module Faults {
  import opened Wrappers
  import opened Unicode
  import opened Json
  import opened JsonNumbers
  import opened Validators
  import opened Patterns
  import opened CheckPatterns
  import opened CanonicalForms
  import opened CanonicalInjectivity
  import opened CanonicalTexts
  import Base64Url
  import Ordering

  /** A rule, and those behind it. */
  ghost function Rule(kept: bool, code: string, rest: Option<string>): Option<string> { if kept then rest else Some(code) }

  function ErrorOf<T>(r: Outcome<T>): Option<string> { if r.Ok? then None else Some(r.code) }

  predicate Unless(v: Value, good: bool) { Missing(v) || good }

  // ---------- the additional data of an envelope ----------

  ghost function AadRefusal(f: seq<Field>): Option<string> {
    Rule(AadKeys(f), "aad_keys",
    Rule(Get(f, K_PROTOCOL_VERSION) == Num(ONE), "aad_version",
    Rule(Get(f, K_KIND) == Str(APPLICATION) || Get(f, K_KIND) == Str(COMMIT), "aad_kind",
    Rule(GoodEpoch(Get(f, K_EPOCH)), "aad_epoch",
    Rule(Unless(Get(f, K_OPERATION_ID), GoodId(Get(f, K_OPERATION_ID))), "aad_operation_id",
    Rule(Unless(Get(f, K_ROSTER_HASH), GoodHash(Get(f, K_ROSTER_HASH))), "aad_roster_hash",
    Rule(Get(f, K_KIND) == Str(COMMIT) || (Missing(Get(f, K_OPERATION_ID)) && Missing(Get(f, K_ROSTER_HASH))), "aad_application_transition",
    Rule(Get(f, K_KIND) == Str(APPLICATION) || !(Missing(Get(f, K_OPERATION_ID)) || Missing(Get(f, K_ROSTER_HASH))), "aad_commit_transition",
    Rule(GoodId(Get(f, K_THREAD_ID)), "aad_thread_id",
    Rule(GoodId(Get(f, K_SENDER_ACCOUNT_ID)), "aad_sender_account_id",
    Rule(GoodId(Get(f, K_SENDER_DEVICE_ID)), "aad_sender_device_id",
    Rule(GoodId(Get(f, K_CLIENT_ENVELOPE_ID)), "aad_client_envelope_id", None))))))))))))
  }

  lemma AadFault(a: Value)
    ensures ErrorOf(NormalizeAad(a)) == if a.Obj? then AadRefusal(a.fields) else Some("aad")
  {
    hide Get, Lit, AsId, AsOptionalId, AsOptionalHash, IsEpoch, Matches, IsId, IsHash, IsDigit, GoodId, GoodHash;
    if a.Obj? {
      var f := a.fields;
      OptionalIdExact(Get(f, K_OPERATION_ID), "aad_operation_id");
      OptionalHashExact(Get(f, K_ROSTER_HASH), "aad_roster_hash");
      IdExact(Get(f, K_THREAD_ID), "aad_thread_id");
      IdExact(Get(f, K_SENDER_ACCOUNT_ID), "aad_sender_account_id");
      IdExact(Get(f, K_SENDER_DEVICE_ID), "aad_sender_device_id");
      IdExact(Get(f, K_CLIENT_ENVELOPE_ID), "aad_client_envelope_id");
      if Get(f, K_EPOCH).Str? {
        EpochIsPattern(Get(f, K_EPOCH).s);
      }
    }
  }

  // ---------- the device forms ----------

  predicate Listed(v: Value) { v.Arr? && 1 <= |v.items| <= 16 }

  predicate AllCapabilities(v: Value) { v.Arr? ==> forall i :: 0 <= i < |v.items| ==> GoodCapability(v.items[i]) }

  lemma CapabilitiesFault(v: Value, listCode: string, itemCode: string)
    ensures ErrorOf(AsCapabilities(v, listCode, itemCode)) == Rule(Listed(v), listCode, Rule(AllCapabilities(v), itemCode, None))
  {
    hide AsTexts, SortedSet, GoodCapability;
    if IsCapabilityList(v) {
      TextsExact(v.items, itemCode);
    }
  }

  lemma NameFault(v: Value, code: string)
    ensures ErrorOf(AsDisplayName(v, code)) == Rule(GoodDisplayName(v), code, None)
  {
    hide GoodDisplayName, AsDisplayName;
    DisplayNameExact(v, code);
  }

  ghost function AuthorizationRefusal(f: seq<Field>): Option<string> {
    Rule(Among(f, {K_ACCOUNT_ID, K_DEVICE_ID, K_PLATFORM, K_DISPLAY_NAME, K_CREDENTIAL, K_SIGNATURE_PUBLIC_KEY, K_CAPABILITIES}),
         "device_authorization_keys",
    Rule(GoodPlatform(Get(f, K_PLATFORM)), "device_platform",
    Rule(GoodDisplayName(Get(f, K_DISPLAY_NAME)), "device_display_name",
    Rule(Listed(Get(f, K_CAPABILITIES)), "device_capabilities",
    Rule(AllCapabilities(Get(f, K_CAPABILITIES)), "device_capability",
    Rule(GoodId(Get(f, K_ACCOUNT_ID)), "device_account_id",
    Rule(GoodId(Get(f, K_DEVICE_ID)), "device_id",
    Rule(GoodBytes(Get(f, K_CREDENTIAL), 8192), "device_credential",
    Rule(GoodBytes(Get(f, K_SIGNATURE_PUBLIC_KEY), 256), "device_signature_key", None)))))))))
  }

  lemma AuthorizationFault(a: Value)
    ensures ErrorOf(NormalizeAuthorization(a)) == if a.Obj? then AuthorizationRefusal(a.fields) else Some("device_authorization")
  {
    hide Get, Lit, AsId, AsPlatform, AsDisplayName, AsCapabilities, Base64Url.AsBase64Url, GoodId, GoodBytes, GoodPlatform;
    hide GoodDisplayName, Listed, AllCapabilities;
    if a.Obj? {
      var f := a.fields;
      PlatformExact(Get(f, K_PLATFORM), "device_platform");
      NameFault(Get(f, K_DISPLAY_NAME), "device_display_name");
      CapabilitiesFault(Get(f, K_CAPABILITIES), "device_capabilities", "device_capability");
      IdExact(Get(f, K_ACCOUNT_ID), "device_account_id");
      IdExact(Get(f, K_DEVICE_ID), "device_id");
      BytesExact(Get(f, K_CREDENTIAL), 8192, "device_credential");
      BytesExact(Get(f, K_SIGNATURE_PUBLIC_KEY), 256, "device_signature_key");
    }
  }

  ghost function RegistrationRefusal(f: seq<Field>): Option<string> {
    Rule(Among(f, {K_CHALLENGE_ID, K_CHALLENGE, K_ACCOUNT_ID, K_DEVICE_ID, K_PLATFORM, K_DISPLAY_NAME, K_CREDENTIAL,
                   K_SIGNATURE_PUBLIC_KEY, K_ACCOUNT_IDENTITY_PUBLIC_KEY, K_ACCOUNT_IDENTITY_SIGNATURE, K_CAPABILITIES}), "device_proof_keys",
    Rule(GoodPlatform(Get(f, K_PLATFORM)), "device_platform",
    Rule(GoodDisplayName(Get(f, K_DISPLAY_NAME)), "device_display_name",
    Rule(Listed(Get(f, K_CAPABILITIES)), "device_capabilities",
    Rule(AllCapabilities(Get(f, K_CAPABILITIES)), "device_capability",
    Rule(GoodId(Get(f, K_CHALLENGE_ID)), "device_challenge_id",
    Rule(GoodBytes(Get(f, K_CHALLENGE), 64), "device_challenge",
    Rule(GoodId(Get(f, K_ACCOUNT_ID)), "device_account_id",
    Rule(GoodId(Get(f, K_DEVICE_ID)), "device_id",
    Rule(GoodBytes(Get(f, K_CREDENTIAL), 8192), "device_credential",
    Rule(GoodBytes(Get(f, K_SIGNATURE_PUBLIC_KEY), 256), "device_signature_key",
    Rule(GoodBytes(Get(f, K_ACCOUNT_IDENTITY_PUBLIC_KEY), 256), "account_identity_key",
    Rule(GoodBytes(Get(f, K_ACCOUNT_IDENTITY_SIGNATURE), 512), "account_identity_signature", None)))))))))))))
  }

  lemma RegistrationFault(a: Value)
    ensures ErrorOf(NormalizeRegistration(a)) == if a.Obj? then RegistrationRefusal(a.fields) else Some("device_proof")
  {
    hide Get, Lit, AsId, AsPlatform, AsDisplayName, AsCapabilities, Base64Url.AsBase64Url, GoodId, GoodBytes, GoodPlatform;
    hide GoodDisplayName, Listed, AllCapabilities;
    if a.Obj? {
      var f := a.fields;
      PlatformExact(Get(f, K_PLATFORM), "device_platform");
      NameFault(Get(f, K_DISPLAY_NAME), "device_display_name");
      CapabilitiesFault(Get(f, K_CAPABILITIES), "device_capabilities", "device_capability");
      IdExact(Get(f, K_CHALLENGE_ID), "device_challenge_id");
      BytesExact(Get(f, K_CHALLENGE), 64, "device_challenge");
      IdExact(Get(f, K_ACCOUNT_ID), "device_account_id");
      IdExact(Get(f, K_DEVICE_ID), "device_id");
      BytesExact(Get(f, K_CREDENTIAL), 8192, "device_credential");
      BytesExact(Get(f, K_SIGNATURE_PUBLIC_KEY), 256, "device_signature_key");
      BytesExact(Get(f, K_ACCOUNT_IDENTITY_PUBLIC_KEY), 256, "account_identity_key");
      BytesExact(Get(f, K_ACCOUNT_IDENTITY_SIGNATURE), 512, "account_identity_signature");
    }
  }

  ghost function TransferRefusal(f: seq<Field>): Option<string> {
    Rule(Among(f, {K_ACCOUNT_ID, K_DEVICE_ID, K_PLATFORM, K_DISPLAY_NAME, K_CREDENTIAL, K_SIGNATURE_PUBLIC_KEY,
                   K_ACCOUNT_IDENTITY_PUBLIC_KEY, K_CAPABILITIES}), "transfer_device_draft_keys",
    Rule(GoodPlatform(Get(f, K_PLATFORM)), "transfer_device_platform",
    Rule(GoodDisplayName(Get(f, K_DISPLAY_NAME)), "transfer_device_display_name",
    Rule(Listed(Get(f, K_CAPABILITIES)), "transfer_device_capabilities",
    Rule(GoodId(Get(f, K_ACCOUNT_ID)), "transfer_account_id",
    Rule(GoodId(Get(f, K_DEVICE_ID)), "transfer_device_id",
    Rule(GoodBytes(Get(f, K_CREDENTIAL), 8192), "transfer_device_credential",
    Rule(GoodBytes(Get(f, K_SIGNATURE_PUBLIC_KEY), 256), "transfer_device_signature_key",
    Rule(GoodBytes(Get(f, K_ACCOUNT_IDENTITY_PUBLIC_KEY), 256), "transfer_account_identity_key",
    Rule(AllCapabilities(Get(f, K_CAPABILITIES)), "transfer_device_capability", None))))))))))
  }

  lemma TransferFault(a: Value)
    ensures ErrorOf(NormalizeTransferDevice(a)) == if a.Obj? then TransferRefusal(a.fields) else Some("transfer_device_draft")
  {
    hide Get, Lit, AsId, AsPlatform, AsDisplayName, AsCapabilities, Base64Url.AsBase64Url, GoodId, GoodBytes, GoodPlatform;
    hide GoodDisplayName, Listed, AllCapabilities, IsCapabilityList;
    if a.Obj? {
      var f := a.fields;
      PlatformExact(Get(f, K_PLATFORM), "transfer_device_platform");
      NameFault(Get(f, K_DISPLAY_NAME), "transfer_device_display_name");
      CapabilitiesFault(Get(f, K_CAPABILITIES), "transfer_device_capabilities", "transfer_device_capability");
      ListIsListed(Get(f, K_CAPABILITIES));
      IdExact(Get(f, K_ACCOUNT_ID), "transfer_account_id");
      IdExact(Get(f, K_DEVICE_ID), "transfer_device_id");
      BytesExact(Get(f, K_CREDENTIAL), 8192, "transfer_device_credential");
      BytesExact(Get(f, K_SIGNATURE_PUBLIC_KEY), 256, "transfer_device_signature_key");
      BytesExact(Get(f, K_ACCOUNT_IDENTITY_PUBLIC_KEY), 256, "transfer_account_identity_key");
    }
  }

  lemma ListIsListed(v: Value)
    ensures IsCapabilityList(v) <==> Listed(v)
  {
  }

  // ---------- the receipt and the roster ----------

  ghost function CheckpointRefusal(f: seq<Field>): Option<string> {
    Rule(Among(f, {K_VERSION, K_DIRECTORY_LABEL, K_IDENTITY_FINGERPRINT, K_ENTRY_COUNT, K_HEAD_HASH}), "directory_receipt_checkpoint_keys",
    Rule(Get(f, K_VERSION) == Num(ONE) && GoodHash(Get(f, K_DIRECTORY_LABEL)) && GoodHash(Get(f, K_IDENTITY_FINGERPRINT))
         && GoodCount(Get(f, K_ENTRY_COUNT)) && (Get(f, K_HEAD_HASH).Null? || GoodHash(Get(f, K_HEAD_HASH)))
         && (RealOf(Get(f, K_ENTRY_COUNT).x) == 0.0 <==> Get(f, K_HEAD_HASH).Null?), "directory_receipt_checkpoint", None))
  }

  ghost function ReceiptRefusal(isoDate: Text -> Option<Text>, f: seq<Field>): Option<string> {
    var checkpoint := Get(f, K_CHECKPOINT);
    var inner := if checkpoint.Obj? then CheckpointRefusal(checkpoint.fields) else Some("directory_receipt_checkpoint");
    Rule(Among(f, {K_VERSION, K_ISSUER, K_CHECKPOINT, K_ISSUED_AT, K_EXPIRES_AT}), "directory_receipt_keys",
    Rule(Get(f, K_VERSION) == Num(ONE) && Get(f, K_ISSUER) == Str(DIRECTORY_ISSUER), "directory_receipt",
    if inner.Some? then inner else
    Rule(GoodDate(isoDate, Get(f, K_ISSUED_AT)) && GoodDate(isoDate, Get(f, K_EXPIRES_AT)), "directory_receipt_date", None)))
  }

  lemma DateFault(isoDate: Text -> Option<Text>, v: Value)
    ensures ErrorOf(AsIsoDate(isoDate, v)) == Rule(GoodDate(isoDate, v), "directory_receipt_date", None)
  {
    hide IsIsoDate, Matches;
    if v.Str? {
      DateIsPattern(v.s);
    }
  }

  lemma HeadFault(v: Value)
    ensures ErrorOf(AsHeadHash(v)) == Rule(v.Null? || GoodHash(v), "directory_receipt_checkpoint", None)
    ensures AsHeadHash(v).Ok? ==> (AsHeadHash(v).value.None? <==> v.Null?)
  {
    hide AsHash, Matches;
    HashExact(v, "directory_receipt_checkpoint");
  }

  lemma ReceiptFault(isoDate: Text -> Option<Text>, a: Value)
    requires IsValue(a)
    ensures ErrorOf(NormalizeReceipt(isoDate, a)) == if a.Obj? then ReceiptRefusal(isoDate, a.fields) else Some("directory_receipt")
  {
    hide Get, Lit, AsHash, AsHeadHash, AsIsoDate, IsEntryCount, GoodCount, GoodDate, GoodHash, RealOf, IsValue;
    if a.Obj? {
      PropertyIsValue(a, K_CHECKPOINT);
      var checkpoint := Get(a.fields, K_CHECKPOINT);
      DateFault(isoDate, Get(a.fields, K_ISSUED_AT));
      DateFault(isoDate, Get(a.fields, K_EXPIRES_AT));
      if checkpoint.Obj? {
        var c := checkpoint.fields;
        PropertyIsValue(checkpoint, K_ENTRY_COUNT);
        HashExact(Get(c, K_DIRECTORY_LABEL), "directory_receipt_checkpoint");
        HashExact(Get(c, K_IDENTITY_FINGERPRINT), "directory_receipt_checkpoint");
        CountExact(Get(c, K_ENTRY_COUNT));
        EntryCountIsNumber(Get(c, K_ENTRY_COUNT));
        HeadFault(Get(c, K_HEAD_HASH));
      }
    }
  }

  ghost function MemberRefusal(v: Value): Option<string> {
    if !v.Obj? then Some("mls_roster_member")
    else
      Rule(Among(v.fields, {K_ACCOUNT_ID, K_DEVICE_ID, K_SIGNATURE_PUBLIC_KEY, K_ACCOUNT_IDENTITY_KEY_HASH}), "mls_roster_member_keys",
      Rule(GoodKey(Get(v.fields, K_SIGNATURE_PUBLIC_KEY)), "mls_roster_signature_key",
      Rule(GoodKey(Get(v.fields, K_ACCOUNT_IDENTITY_KEY_HASH)), "mls_roster_identity_hash",
      Rule(GoodId(Get(v.fields, K_ACCOUNT_ID)), "mls_roster_account_id",
      Rule(GoodId(Get(v.fields, K_DEVICE_ID)), "mls_roster_device_id", None)))))
  }

  lemma MemberFault(v: Value)
    ensures ErrorOf(NormalizeMember(v)) == MemberRefusal(v)
  {
    hide Get, Lit, AsId, GoodId, GoodKey, Base64Url.DecodedLength;
    if v.Obj? {
      var f := v.fields;
      KeyExact(Get(f, K_SIGNATURE_PUBLIC_KEY));
      KeyExact(Get(f, K_ACCOUNT_IDENTITY_KEY_HASH));
      IdExact(Get(f, K_ACCOUNT_ID), "mls_roster_account_id");
      IdExact(Get(f, K_DEVICE_ID), "mls_roster_device_id");
    }
  }

  /** The first member with an error. */
  ghost function MembersRefusal(items: seq<Value>): Option<string> {
    if items == [] then None
    else if MemberRefusal(items[0]).Some? then MemberRefusal(items[0])
    else MembersRefusal(items[1..])
  }

  lemma {:induction false} RefusalSnoc(init: seq<Value>, last: Value)
    ensures MembersRefusal(init + [last]) == if MembersRefusal(init).Some? then MembersRefusal(init) else MemberRefusal(last)
  {
    hide MemberRefusal;
    var items := init + [last];
    if init == [] {
      assert items == [last] && items[1..] == [];
    } else {
      RefusalSnoc(init[1..], last);
      assert items[0] == init[0] && items[1..] == init[1..] + [last];
    }
  }

  lemma {:induction false} MembersFault(items: seq<Value>)
    ensures ErrorOf(NormalizeMembers(items)) == MembersRefusal(items)
  {
    hide NormalizeMember, MemberRefusal;
    if items != [] {
      var init, last := items[..|items| - 1], items[|items| - 1];
      MembersFault(init);
      MemberFault(last);
      RefusalSnoc(init, last);
      assert items == init + [last];
    }
  }

  lemma RosterFault(leq: (Text, Text) -> bool, a: Value)
    requires TotalOrder(leq)
    ensures ErrorOf(NormalizeRoster(leq, a)) ==
      if !(a.Arr? && 1 <= |a.items| <= 16) then Some("mls_roster")
      else if MembersRefusal(a.items).Some? then MembersRefusal(a.items)
      else if GoodRoster(a) then None
      else Some("mls_roster_duplicate")
  {
    hide NormalizeMembers, MembersRefusal, GoodRoster, TotalOrder, Ordering.Sort;
    var rows := RosterExact(leq, a);
    if a.Arr? {
      MembersFault(a.items);
    }
  }
}
