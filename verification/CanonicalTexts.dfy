/** What each of the six canonical encodings accepts, and the array that it prints, item by item, in terms of the
    properties of its input. */
module CanonicalTexts {
  import opened Wrappers
  import opened Unicode
  import opened Json
  import opened JsonNumbers
  import opened Validators
  import opened Ordering
  import opened Patterns
  import opened CheckPatterns
  import opened CanonicalForms
  import opened CanonicalInjectivity
  import opened NumberValues
  import Base64Url

  // ---------- properties ----------

  predicate Among(fields: seq<Field>, names: set<Text>) { forall i :: 0 <= i < |fields| ==> fields[i].key in names }

  predicate GoodId(v: Value) { v.Str? && Matches(ID_PATTERN, v.s) }

  predicate GoodHash(v: Value) { v.Str? && Matches(HASH_PATTERN, v.s) }

  /** Unpadded base64url of one to `most` bytes. */
  ghost predicate GoodBytes(v: Value, most: nat) {
    v.Str? && exists b: seq<Byte> :: 1 <= |b| <= most && v.s == Base64Url.Encode(b)
  }

  ghost predicate GoodKey(v: Value) { v.Str? && exists b: seq<Byte> :: |b| == 32 && v.s == Base64Url.Encode(b) }

  predicate GoodPlatform(v: Value) { v == Str(IOS) || v == Str(ANDROID) || v == Str(WEB) }

  predicate GoodDisplayName(v: Value) {
    v.Str? && 1 <= |v.s| <= 80 && exists i :: 0 <= i < |v.s| && !InRanges(v.s[i], SPACES)
  }

  predicate GoodCapability(v: Value) { v.Str? && 1 <= |v.s| <= 80 }

  predicate GoodCapabilities(v: Value) {
    v.Arr? && 1 <= |v.items| <= 16 && forall i :: 0 <= i < |v.items| ==> GoodCapability(v.items[i])
  }

  /** `t` is `s` without the white space around it. */
  ghost predicate TrimOf(t: Text, s: Text) {
    && (exists before, after :: s == before + t + after && AllSpaces(before) && AllSpaces(after))
    && (t != [] ==> !InRanges(t[0], SPACES) && !InRanges(t[|t| - 1], SPACES))
  }

  predicate AllSpaces(s: Text) { forall i :: 0 <= i < |s| ==> InRanges(s[i], SPACES) }

  /** The list that is printed for the capabilities `v`. */
  predicate Capabilities(ts: seq<Text>, v: Value) {
    v.Arr? && Ascending(ts) && (forall i :: 0 <= i < |ts| ==> Str(ts[i]) in v.items) && forall i :: 0 <= i < |v.items| ==> v.items[i].Str? && v.items[i].s in ts
  }

  // ---------- the checks ----------

  lemma IdExact(v: Value, code: string)
    ensures AsId(v, code) == if GoodId(v) then Ok(v.s) else Fail(code)
  {
    hide IsId, Matches;
    if v.Str? {
      IdIsPattern(v.s);
    }
  }

  lemma HashExact(v: Value, code: string)
    ensures AsHash(v, code) == if GoodHash(v) then Ok(v.s) else Fail(code)
  {
    hide IsHash, Matches;
    if v.Str? {
      HashIsPattern(v.s);
    }
  }

  lemma BytesExact(v: Value, most: nat, code: string)
    ensures Base64Url.AsBase64Url(v, most, code) == if GoodBytes(v, most) then Ok(v.s) else Fail(code)
  {
    hide Base64Url.DecodedLength, Base64Url.Encode, Base64Url.Decode;
    if v.Str? {
      if Base64Url.DecodedLength(v.s, code).Ok? {
        Base64Url.AcceptedDecodes(v.s, code);
      }
      FailsWithCode(v.s, code);
      forall b: seq<Byte> | b != [] && v.s == Base64Url.Encode(b)
        ensures Base64Url.DecodedLength(v.s, code) == Ok(|b|)
      {
        Base64Url.EncodeAccepted(b, code);
      }
    }
  }

  lemma FailsWithCode(s: Text, code: string)
    ensures Base64Url.DecodedLength(s, code).Fail? ==> Base64Url.DecodedLength(s, code) == Fail(code)
    ensures Base64Url.DecodedLength(s, code).Ok? ==> Base64Url.AllInAlphabet(s)
  {
  }

  lemma KeyExact(v: Value)
    ensures v.Str? && Base64Url.DecodedLength(v.s, "") == Ok(32) <==> GoodKey(v)
  {
    hide Base64Url.DecodedLength, Base64Url.Encode, Base64Url.Decode;
    if v.Str? {
      if Base64Url.DecodedLength(v.s, "").Ok? {
        Base64Url.AcceptedDecodes(v.s, "");
        FailsWithCode(v.s, "");
      }
      forall b: seq<Byte> | |b| == 32 && v.s == Base64Url.Encode(b)
        ensures Base64Url.DecodedLength(v.s, "") == Ok(|b|)
      {
        Base64Url.EncodeAccepted(b, "");
      }
    }
  }

  lemma PlatformExact(v: Value, code: string)
    ensures AsPlatform(v, code) == if GoodPlatform(v) then Ok(v.s) else Fail(code)
  {
  }

  lemma SpacesAreTrimmed(s: Text)
    ensures AllSpaces(s) <==> IsBlank(s)
    ensures forall i :: 0 <= i < |s| ==> (InRanges(s[i], SPACES) <==> IsTrimmed(s[i]))
  {
    hide InRanges, IsTrimmed;
    forall u
      ensures InRanges(u, SPACES) <==> IsTrimmed(u)
    {
      SpaceAdmits(u);
    }
  }

  lemma {:induction false} TrimStartIs(s: Text) returns (before: Text)
    ensures s == before + TrimStart(s) && AllSpaces(before) && (TrimStart(s) != [] ==> !InRanges(TrimStart(s)[0], SPACES))
  {
    hide InRanges, IsTrimmed;
    SpacesAreTrimmed(s);
    before := [];
    if s != [] && IsTrimmed(s[0]) {
      var more := TrimStartIs(s[1..]);
      before := [s[0]] + more;
      assert s == [s[0]] + s[1..];
    }
  }

  lemma {:induction false} TrimEndIs(s: Text) returns (after: Text)
    ensures s == TrimEnd(s) + after && AllSpaces(after) && (TrimEnd(s) != [] ==> !InRanges(TrimEnd(s)[|TrimEnd(s)| - 1], SPACES))
  {
    hide InRanges, IsTrimmed;
    SpacesAreTrimmed(s);
    after := [];
    if s != [] && IsTrimmed(s[|s| - 1]) {
      var more := TrimEndIs(s[..|s| - 1]);
      after := more + [s[|s| - 1]];
      assert s == s[..|s| - 1] + [s[|s| - 1]];
    }
  }

  lemma TrimIs(s: Text)
    ensures TrimOf(Trim(s), s)
    ensures Trim(s) == [] <==> AllSpaces(s)
  {
    hide InRanges, TrimStart, TrimEnd;
    var before := TrimStartIs(s);
    var after := TrimEndIs(TrimStart(s));
    assert s == before + Trim(s) + after;
    if Trim(s) == [] {
      assert s == before + after;
    } else {
      assert Trim(s)[0] == TrimStart(s)[0];
      assert s[|before|] == Trim(s)[0];
    }
  }

  lemma DisplayNameExact(v: Value, code: string)
    ensures AsDisplayName(v, code) == if GoodDisplayName(v) then Ok(Trim(v.s)) else Fail(code)
  {
    hide InRanges, Trim;
    if v.Str? {
      TrimIs(v.s);
    }
  }

  lemma {:induction false} TextsExact(items: seq<Value>, code: string)
    ensures AsTexts(items, 80, code).Ok? <==> forall i :: 0 <= i < |items| ==> GoodCapability(items[i])
    ensures AsTexts(items, 80, code).Fail? ==> AsTexts(items, 80, code) == Fail(code)
    ensures AsTexts(items, 80, code).Ok? ==>
      var ts := AsTexts(items, 80, code).value;
      |ts| == |items| && forall i :: 0 <= i < |ts| ==> items[i] == Str(ts[i])
  {
    if items != [] {
      TextsExact(items[..|items| - 1], code);
    }
  }

  lemma SetExact(ts: seq<Text>)
    ensures Ascending(SortedSet(ts)) && forall t :: t in SortedSet(ts) <==> t in ts
  {
    hide Before, SortedSet;
    CapabilitiesSorted(ts);
    var sorted := SortedSet(ts);
    forall i, j | 0 <= i < j < |sorted|
      ensures Before(sorted[i], sorted[j])
    {
      BeforeIsLess(sorted[i], sorted[j]);
    }
  }

  lemma CapabilitiesExact(v: Value, listCode: string, itemCode: string)
    ensures AsCapabilities(v, listCode, itemCode).Ok? <==> GoodCapabilities(v)
    ensures AsCapabilities(v, listCode, itemCode).Ok? ==> Capabilities(AsCapabilities(v, listCode, itemCode).value, v)
  {
    hide AsTexts, SortedSet, Ascending;
    if IsCapabilityList(v) {
      TextsExact(v.items, itemCode);
      if AsTexts(v.items, 80, itemCode).Ok? {
        var ts := AsTexts(v.items, 80, itemCode).value;
        SetExact(ts);
        SameElements(v, ts, SortedSet(ts));
      }
    }
  }

  lemma SameElements(v: Value, ts: seq<Text>, sorted: seq<Text>)
    requires v.Arr? && |ts| == |v.items| && (forall i :: 0 <= i < |ts| ==> v.items[i] == Str(ts[i])) && forall t :: t in sorted <==> t in ts
    ensures forall i :: 0 <= i < |sorted| ==> Str(sorted[i]) in v.items
    ensures forall i :: 0 <= i < |v.items| ==> v.items[i].Str? && v.items[i].s in sorted
  {
    forall i | 0 <= i < |sorted|
      ensures Str(sorted[i]) in v.items
    {
      assert sorted[i] in ts;
      var j :| 0 <= j < |ts| && ts[j] == sorted[i];
      assert v.items[j] == Str(sorted[i]);
    }
    forall i | 0 <= i < |v.items|
      ensures v.items[i].Str? && v.items[i].s in sorted
    {
      assert ts[i] in ts;
    }
  }

  lemma OptionalIdExact(v: Value, code: string)
    ensures AsOptionalId(v, code) ==
      if v.Undefined? || v.Null? then Ok(None) else if GoodId(v) then Ok(Some(v.s)) else Fail(code)
  {
    hide AsId, GoodId;
    IdExact(v, code);
  }

  lemma OptionalHashExact(v: Value, code: string)
    ensures AsOptionalHash(v, code) ==
      if v.Undefined? || v.Null? then Ok(None) else if GoodHash(v) then Ok(Some(v.s)) else Fail(code)
  {
    hide AsHash, GoodHash;
    HashExact(v, code);
  }

  // ---------- the additional data of an envelope ----------

  predicate GoodEpoch(v: Value) { v.Str? && Matches(EPOCH_PATTERN, v.s) }

  predicate Missing(v: Value) { v.Undefined? || v.Null? }

  predicate GoodTransition(fields: seq<Field>) {
    if Get(fields, K_KIND) == Str(COMMIT) then
      GoodId(Get(fields, K_OPERATION_ID)) && GoodHash(Get(fields, K_ROSTER_HASH))
    else
      Get(fields, K_KIND) == Str(APPLICATION)
      && Missing(Get(fields, K_OPERATION_ID)) && Missing(Get(fields, K_ROSTER_HASH))
  }

  predicate AadKeys(fields: seq<Field>) {
    Among(fields, {K_PROTOCOL_VERSION, K_THREAD_ID, K_SENDER_ACCOUNT_ID, K_SENDER_DEVICE_ID,
                   K_CLIENT_ENVELOPE_ID, K_KIND, K_EPOCH, K_OPERATION_ID, K_ROSTER_HASH})
  }

  predicate AadIds(fields: seq<Field>) {
    && GoodId(Get(fields, K_THREAD_ID)) && GoodId(Get(fields, K_SENDER_ACCOUNT_ID))
    && GoodId(Get(fields, K_SENDER_DEVICE_ID)) && GoodId(Get(fields, K_CLIENT_ENVELOPE_ID))
  }

  predicate GoodAad(v: Value) {
    && v.Obj? && AadKeys(v.fields) && Get(v.fields, K_PROTOCOL_VERSION) == Num(ONE)
    && GoodTransition(v.fields) && GoodEpoch(Get(v.fields, K_EPOCH)) && AadIds(v.fields)
  }

  function OrNothing(v: Value): Value { if v.Undefined? then Null else v }

  function AadItems(fields: seq<Field>): seq<Value> {
    [Str(AAD_TAG), Num(ONE), Get(fields, K_THREAD_ID), Get(fields, K_SENDER_ACCOUNT_ID), Get(fields, K_SENDER_DEVICE_ID),
     Get(fields, K_CLIENT_ENVELOPE_ID), Get(fields, K_KIND), Get(fields, K_EPOCH),
     OrNothing(Get(fields, K_OPERATION_ID)), OrNothing(Get(fields, K_ROSTER_HASH))]
  }

  /** An envelope is accepted exactly under these rules, and its additional data is the array of these properties. */
  lemma AadExact(a: Value)
    ensures NormalizeAad(a).Ok? <==> GoodAad(a)
    ensures GoodAad(a) ==> Parse(CanonicalText(NormalizeAad(a).value)) == Some(Arr(AadItems(a.fields)))
  {
    hide NormalizeAad, FormItems, AadItems, GoodAad, CanonicalText, Parse;
    AadRule(a);
    if GoodAad(a) {
      AadIsForm(a);
      TextOfItems(NormalizeAad(a).value);
    }
  }

  lemma AadIsForm(a: Value)
    requires NormalizeAad(a).Ok?
    ensures ValidForm(NormalizeAad(a).value)
  {
    hide NormalizeAad;
    AadParts(a);
  }

  /** The printed text is JSON of the items. */
  lemma TextOfItems(f: Form)
    requires ValidForm(f)
    ensures Parse(CanonicalText(f)) == Some(Arr(FormItems(f)))
  {
    hide FormItems, Parse, Print;
    FormIsJson(f);
    RoundTrip(Arr(FormItems(f)));
  }

  lemma AadRule(a: Value)
    ensures NormalizeAad(a).Ok? <==> GoodAad(a)
    ensures GoodAad(a) ==> FormItems(NormalizeAad(a).value) == AadItems(a.fields)
  {
    hide Get, Lit, AsId, AsOptionalId, AsOptionalHash, IsEpoch, Matches, IsId, IsHash, IsDigit;
    if a.Obj? {
      var f := a.fields;
      OptionalIdExact(Get(f, K_OPERATION_ID), "aad_operation_id");
      OptionalHashExact(Get(f, K_ROSTER_HASH), "aad_roster_hash");
      IdExact(Get(f, K_THREAD_ID), "aad_thread_id");
      IdExact(Get(f, K_SENDER_ACCOUNT_ID), "aad_sender_account_id");
      IdExact(Get(f, K_SENDER_DEVICE_ID), "aad_sender_device_id");
      IdExact(Get(f, K_CLIENT_ENVELOPE_ID), "aad_client_envelope_id");
      if Get(f, K_EPOCH).Str? {
        EpochIsPattern(Get(f, K_EPOCH).s);
      }
      KindsDiffer();
    }
  }

  lemma KindsDiffer()
    ensures APPLICATION != COMMIT
  {
    assert |APPLICATION| == 11 && |COMMIT| == 6;
  }

  // ---------- the three device forms ----------

  predicate SharedDevice(fields: seq<Field>) {
    && GoodId(Get(fields, K_ACCOUNT_ID)) && GoodId(Get(fields, K_DEVICE_ID)) && GoodPlatform(Get(fields, K_PLATFORM))
    && GoodDisplayName(Get(fields, K_DISPLAY_NAME)) && GoodCapabilities(Get(fields, K_CAPABILITIES))
  }

  ghost predicate DeviceKeys(fields: seq<Field>) {
    GoodBytes(Get(fields, K_CREDENTIAL), 8192) && GoodBytes(Get(fields, K_SIGNATURE_PUBLIC_KEY), 256)
  }

  ghost predicate GoodAuthorization(v: Value) {
    && v.Obj? && SharedDevice(v.fields) && DeviceKeys(v.fields)
    && Among(v.fields, {K_ACCOUNT_ID, K_DEVICE_ID, K_PLATFORM, K_DISPLAY_NAME, K_CREDENTIAL, K_SIGNATURE_PUBLIC_KEY, K_CAPABILITIES})
  }

  ghost predicate GoodTransfer(v: Value) {
    && v.Obj? && SharedDevice(v.fields) && DeviceKeys(v.fields)
    && GoodBytes(Get(v.fields, K_ACCOUNT_IDENTITY_PUBLIC_KEY), 256)
    && Among(v.fields, {K_ACCOUNT_ID, K_DEVICE_ID, K_PLATFORM, K_DISPLAY_NAME, K_CREDENTIAL, K_SIGNATURE_PUBLIC_KEY,
                        K_ACCOUNT_IDENTITY_PUBLIC_KEY, K_CAPABILITIES})
  }

  ghost predicate GoodRegistration(v: Value) {
    && v.Obj? && SharedDevice(v.fields) && DeviceKeys(v.fields)
    && GoodId(Get(v.fields, K_CHALLENGE_ID)) && GoodBytes(Get(v.fields, K_CHALLENGE), 64)
    && GoodBytes(Get(v.fields, K_ACCOUNT_IDENTITY_PUBLIC_KEY), 256)
    && GoodBytes(Get(v.fields, K_ACCOUNT_IDENTITY_SIGNATURE), 512)
    && Among(v.fields, {K_CHALLENGE_ID, K_CHALLENGE, K_ACCOUNT_ID, K_DEVICE_ID, K_PLATFORM, K_DISPLAY_NAME, K_CREDENTIAL,
                        K_SIGNATURE_PUBLIC_KEY, K_ACCOUNT_IDENTITY_PUBLIC_KEY, K_ACCOUNT_IDENTITY_SIGNATURE, K_CAPABILITIES})
  }

  /** The display name and the capabilities as they are printed. */
  ghost predicate Printed(fields: seq<Field>, name: Text, capabilities: seq<Text>) {
    && Get(fields, K_DISPLAY_NAME).Str? && TrimOf(name, Get(fields, K_DISPLAY_NAME).s)
    && Capabilities(capabilities, Get(fields, K_CAPABILITIES))
  }

  function AuthorizationItems(fields: seq<Field>, name: Text, capabilities: seq<Text>): seq<Value> {
    [Str(AUTHORIZATION_TAG), Num(ONE), Get(fields, K_ACCOUNT_ID), Get(fields, K_DEVICE_ID), Get(fields, K_PLATFORM), Str(name),
     Get(fields, K_CREDENTIAL), Get(fields, K_SIGNATURE_PUBLIC_KEY), Arr(Strings(capabilities))]
  }

  function TransferItems(fields: seq<Field>, name: Text, capabilities: seq<Text>): seq<Value> {
    [Str(TRANSFER_TAG), Num(ONE), Get(fields, K_ACCOUNT_ID), Get(fields, K_DEVICE_ID), Get(fields, K_PLATFORM), Str(name),
     Get(fields, K_CREDENTIAL), Get(fields, K_SIGNATURE_PUBLIC_KEY), Get(fields, K_ACCOUNT_IDENTITY_PUBLIC_KEY),
     Arr(Strings(capabilities))]
  }

  function RegistrationItems(fields: seq<Field>, name: Text, capabilities: seq<Text>): seq<Value> {
    [Str(REGISTRATION_TAG), Num(ONE), Get(fields, K_CHALLENGE_ID), Get(fields, K_CHALLENGE), Get(fields, K_ACCOUNT_ID),
     Get(fields, K_DEVICE_ID), Get(fields, K_PLATFORM), Str(name), Get(fields, K_CREDENTIAL), Get(fields, K_SIGNATURE_PUBLIC_KEY),
     Get(fields, K_ACCOUNT_IDENTITY_PUBLIC_KEY), Get(fields, K_ACCOUNT_IDENTITY_SIGNATURE), Arr(Strings(capabilities))]
  }

  lemma AuthorizationRule(a: Value) returns (name: Text, capabilities: seq<Text>)
    ensures NormalizeAuthorization(a).Ok? <==> GoodAuthorization(a)
    ensures GoodAuthorization(a) ==> Printed(a.fields, name, capabilities)
    ensures GoodAuthorization(a) ==> FormItems(NormalizeAuthorization(a).value) == AuthorizationItems(a.fields, name, capabilities)
  {
    hide Get, Lit, AsId, AsPlatform, AsDisplayName, AsCapabilities, Base64Url.AsBase64Url, Trim, TrimOf, Matches;
    hide InRanges, Base64Url.Encode, Base64Url.DecodedLength, GoodPlatform, GoodCapabilities, Capabilities, Strings;
    name, capabilities := [], [];
    if a.Obj? {
      var f := a.fields;
      PlatformExact(Get(f, K_PLATFORM), "device_platform");
      PlatformIsText(Get(f, K_PLATFORM));
      DisplayNameExact(Get(f, K_DISPLAY_NAME), "device_display_name");
      CapabilitiesExact(Get(f, K_CAPABILITIES), "device_capabilities", "device_capability");
      IdExact(Get(f, K_ACCOUNT_ID), "device_account_id");
      IdExact(Get(f, K_DEVICE_ID), "device_id");
      BytesExact(Get(f, K_CREDENTIAL), 8192, "device_credential");
      BytesExact(Get(f, K_SIGNATURE_PUBLIC_KEY), 256, "device_signature_key");
      if GoodAuthorization(a) {
        TrimIs(Get(f, K_DISPLAY_NAME).s);
        name := Trim(Get(f, K_DISPLAY_NAME).s);
        capabilities := AsCapabilities(Get(f, K_CAPABILITIES), "device_capabilities", "device_capability").value;
      }
    }
  }

  lemma PlatformIsText(v: Value)
    ensures GoodPlatform(v) ==> v.Str?
  {
  }

  lemma TransferAccepted(a: Value)
    ensures NormalizeTransferDevice(a).Ok? <==> GoodTransfer(a)
  {
    hide Get, Lit, AsId, AsPlatform, AsDisplayName, AsCapabilities, Base64Url.AsBase64Url, Trim, Matches, InRanges, Base64Url.Encode;
    hide GoodId, GoodBytes, GoodDisplayName, GoodPlatform, GoodCapabilities, Capabilities, IsCapabilityList;
    if a.Obj? {
      var f := a.fields;
      PlatformExact(Get(f, K_PLATFORM), "transfer_device_platform");
      DisplayNameExact(Get(f, K_DISPLAY_NAME), "transfer_device_display_name");
      CapabilitiesExact(Get(f, K_CAPABILITIES), "transfer_device_capabilities", "transfer_device_capability");
      CapabilitiesAreListed(Get(f, K_CAPABILITIES));
      IdExact(Get(f, K_ACCOUNT_ID), "transfer_account_id");
      IdExact(Get(f, K_DEVICE_ID), "transfer_device_id");
      BytesExact(Get(f, K_CREDENTIAL), 8192, "transfer_device_credential");
      BytesExact(Get(f, K_SIGNATURE_PUBLIC_KEY), 256, "transfer_device_signature_key");
      BytesExact(Get(f, K_ACCOUNT_IDENTITY_PUBLIC_KEY), 256, "transfer_account_identity_key");
    }
  }

  lemma TransferRule(a: Value) returns (name: Text, capabilities: seq<Text>)
    ensures NormalizeTransferDevice(a).Ok? <==> GoodTransfer(a)
    ensures GoodTransfer(a) ==> Printed(a.fields, name, capabilities)
    ensures GoodTransfer(a) ==> FormItems(NormalizeTransferDevice(a).value) == TransferItems(a.fields, name, capabilities)
  {
    hide Get, Lit, NormalizeTransferDevice, GoodTransfer, Trim, TrimOf, Capabilities, CapabilityTexts, SortedSet, Strings;
    name, capabilities := [], [];
    TransferAccepted(a);
    if GoodTransfer(a) {
      TransferParts(a);
      name := Trim(Get(a.fields, K_DISPLAY_NAME).s);
      capabilities := NormalizeTransferDevice(a).value.capabilities;
      TrimIs(Get(a.fields, K_DISPLAY_NAME).s);
      TransferLists(a);
    }
  }

  lemma TransferLists(a: Value)
    requires NormalizeTransferDevice(a).Ok? && NormalizeTransferDevice(a).value.TransferDevice?
    ensures Capabilities(NormalizeTransferDevice(a).value.capabilities, Get(a.fields, K_CAPABILITIES))
  {
    hide Get, AsId, AsPlatform, AsDisplayName, AsCapabilities, Base64Url.AsBase64Url, OnlyKeys, Capabilities, IsCapabilityList;
    CapabilitiesExact(Get(a.fields, K_CAPABILITIES), "transfer_device_capabilities", "transfer_device_capability");
  }

  lemma CapabilitiesAreListed(v: Value)
    ensures GoodCapabilities(v) ==> IsCapabilityList(v)
  {
  }

  lemma RegistrationRule(a: Value) returns (name: Text, capabilities: seq<Text>)
    ensures NormalizeRegistration(a).Ok? <==> GoodRegistration(a)
    ensures GoodRegistration(a) ==> Printed(a.fields, name, capabilities)
    ensures GoodRegistration(a) ==> FormItems(NormalizeRegistration(a).value) == RegistrationItems(a.fields, name, capabilities)
  {
    hide Get, Lit, AsId, AsPlatform, AsDisplayName, AsCapabilities, Base64Url.AsBase64Url, Trim, TrimOf, Matches;
    hide InRanges, Base64Url.Encode, Base64Url.DecodedLength, GoodPlatform, GoodCapabilities, Capabilities, Strings;
    name, capabilities := [], [];
    if a.Obj? {
      var f := a.fields;
      PlatformExact(Get(f, K_PLATFORM), "device_platform");
      PlatformIsText(Get(f, K_PLATFORM));
      DisplayNameExact(Get(f, K_DISPLAY_NAME), "device_display_name");
      CapabilitiesExact(Get(f, K_CAPABILITIES), "device_capabilities", "device_capability");
      IdExact(Get(f, K_CHALLENGE_ID), "device_challenge_id");
      BytesExact(Get(f, K_CHALLENGE), 64, "device_challenge");
      IdExact(Get(f, K_ACCOUNT_ID), "device_account_id");
      IdExact(Get(f, K_DEVICE_ID), "device_id");
      BytesExact(Get(f, K_CREDENTIAL), 8192, "device_credential");
      BytesExact(Get(f, K_SIGNATURE_PUBLIC_KEY), 256, "device_signature_key");
      BytesExact(Get(f, K_ACCOUNT_IDENTITY_PUBLIC_KEY), 256, "account_identity_key");
      BytesExact(Get(f, K_ACCOUNT_IDENTITY_SIGNATURE), 512, "account_identity_signature");
      if GoodRegistration(a) {
        TrimIs(Get(f, K_DISPLAY_NAME).s);
        name := Trim(Get(f, K_DISPLAY_NAME).s);
        capabilities := AsCapabilities(Get(f, K_CAPABILITIES), "device_capabilities", "device_capability").value;
      }
    }
  }

  lemma AuthorizationExact(a: Value) returns (name: Text, capabilities: seq<Text>)
    ensures NormalizeAuthorization(a).Ok? <==> GoodAuthorization(a)
    ensures GoodAuthorization(a) ==> Printed(a.fields, name, capabilities)
    ensures GoodAuthorization(a) ==> Parse(CanonicalText(NormalizeAuthorization(a).value)) == Some(Arr(AuthorizationItems(a.fields, name, capabilities)))
  {
    hide NormalizeAuthorization, FormItems, AuthorizationItems, GoodAuthorization, CanonicalText, Parse, Printed;
    name, capabilities := AuthorizationRule(a);
    if GoodAuthorization(a) {
      AuthorizationParts(a);
      TextOfItems(NormalizeAuthorization(a).value);
    }
  }

  lemma TransferExact(a: Value) returns (name: Text, capabilities: seq<Text>)
    ensures NormalizeTransferDevice(a).Ok? <==> GoodTransfer(a)
    ensures GoodTransfer(a) ==> Printed(a.fields, name, capabilities)
    ensures GoodTransfer(a) ==> Parse(CanonicalText(NormalizeTransferDevice(a).value)) == Some(Arr(TransferItems(a.fields, name, capabilities)))
  {
    hide NormalizeTransferDevice, FormItems, TransferItems, GoodTransfer, CanonicalText, Parse, Printed;
    name, capabilities := TransferRule(a);
    if GoodTransfer(a) {
      TransferParts(a);
      TextOfItems(NormalizeTransferDevice(a).value);
    }
  }

  lemma RegistrationExact(a: Value) returns (name: Text, capabilities: seq<Text>)
    ensures NormalizeRegistration(a).Ok? <==> GoodRegistration(a)
    ensures GoodRegistration(a) ==> Printed(a.fields, name, capabilities)
    ensures GoodRegistration(a) ==> Parse(CanonicalText(NormalizeRegistration(a).value)) == Some(Arr(RegistrationItems(a.fields, name, capabilities)))
  {
    hide NormalizeRegistration, FormItems, RegistrationItems, GoodRegistration, CanonicalText, Parse, Printed;
    name, capabilities := RegistrationRule(a);
    if GoodRegistration(a) {
      RegistrationParts(a);
      TextOfItems(NormalizeRegistration(a).value);
    }
  }

  // ---------- the receipt of a directory ----------

  /** A whole number from 0 to 64. */
  ghost predicate GoodCount(v: Value) { v.Num? && exists n: nat :: Counts(v.x, n) }

  predicate Counts(x: Float, n: nat) { n <= 64 && RealOf(x) == n as real }

  lemma CountExact(v: Value)
    requires IsValue(v)
    ensures IsEntryCount(v) <==> GoodCount(v)
    ensures IsEntryCount(v) ==> (v.x.Zero? <==> RealOf(v.x) == 0.0)
  {
    hide RealOf;
    if v.Num? {
      ZeroValue();
      if v.x.Dec? {
        SignOf(v.x);
        if IsEntryCount(v) {
          var n := WholeValue(v.x);
          assert Counts(v.x, n);
        }
        if GoodCount(v) {
          var n: nat :| Counts(v.x, n);
          WholeNumber(v.x, n);
        }
      } else {
        assert Counts(v.x, 0);
      }
    }
  }

  lemma ZeroValue()
    ensures RealOf(Zero) == 0.0
  {
  }

  ghost predicate GoodCheckpoint(v: Value) {
    && v.Obj? && Get(v.fields, K_VERSION) == Num(ONE)
    && GoodHash(Get(v.fields, K_DIRECTORY_LABEL)) && GoodHash(Get(v.fields, K_IDENTITY_FINGERPRINT))
    && GoodCount(Get(v.fields, K_ENTRY_COUNT))
    && (if RealOf(Get(v.fields, K_ENTRY_COUNT).x) == 0.0 then Get(v.fields, K_HEAD_HASH).Null? else GoodHash(Get(v.fields, K_HEAD_HASH)))
    && Among(v.fields, {K_VERSION, K_DIRECTORY_LABEL, K_IDENTITY_FINGERPRINT, K_ENTRY_COUNT, K_HEAD_HASH})
  }

  predicate GoodDate(isoDate: Text -> Option<Text>, v: Value) { v.Str? && Matches(ISO_DATE_PATTERN, v.s) && isoDate(v.s).Some? }

  ghost predicate GoodReceipt(isoDate: Text -> Option<Text>, v: Value) {
    && v.Obj? && Get(v.fields, K_VERSION) == Num(ONE) && Get(v.fields, K_ISSUER) == Str(DIRECTORY_ISSUER)
    && GoodCheckpoint(Get(v.fields, K_CHECKPOINT))
    && GoodDate(isoDate, Get(v.fields, K_ISSUED_AT)) && GoodDate(isoDate, Get(v.fields, K_EXPIRES_AT))
    && Among(v.fields, {K_VERSION, K_ISSUER, K_CHECKPOINT, K_ISSUED_AT, K_EXPIRES_AT})
  }

  function ReceiptItems(isoDate: Text -> Option<Text>, fields: seq<Field>): seq<Value>
    requires Get(fields, K_CHECKPOINT).Obj?
    requires GoodDate(isoDate, Get(fields, K_ISSUED_AT)) && GoodDate(isoDate, Get(fields, K_EXPIRES_AT))
  {
    var checkpoint := Get(fields, K_CHECKPOINT).fields;
    [Str(RECEIPT_TAG), Num(ONE), Str(DIRECTORY_ISSUER), Get(checkpoint, K_DIRECTORY_LABEL), Get(checkpoint, K_IDENTITY_FINGERPRINT),
     Get(checkpoint, K_ENTRY_COUNT), Get(checkpoint, K_HEAD_HASH),
     Str(isoDate(Get(fields, K_ISSUED_AT).s).value), Str(isoDate(Get(fields, K_EXPIRES_AT).s).value)]
  }

  lemma IsoDateExact(isoDate: Text -> Option<Text>, v: Value)
    ensures AsIsoDate(isoDate, v).Ok? <==> GoodDate(isoDate, v)
    ensures GoodDate(isoDate, v) ==> AsIsoDate(isoDate, v) == Ok(isoDate(v.s).value)
  {
    hide IsIsoDate, Matches;
    if v.Str? {
      DateIsPattern(v.s);
    }
  }

  lemma HeadHashExact(v: Value)
    ensures AsHeadHash(v).Ok? <==> v.Null? || GoodHash(v)
    ensures AsHeadHash(v).Ok? ==> AsHeadHash(v).value == if v.Null? then None else Some(v.s)
  {
    hide AsHash, Matches;
    HashExact(v, "directory_receipt_checkpoint");
  }

  lemma ReceiptRule(isoDate: Text -> Option<Text>, a: Value)
    requires IsValue(a)
    ensures NormalizeReceipt(isoDate, a).Ok? <==> GoodReceipt(isoDate, a)
    ensures GoodReceipt(isoDate, a) ==> FormItems(NormalizeReceipt(isoDate, a).value) == ReceiptItems(isoDate, a.fields)
  {
    hide Get, Lit, AsHash, AsHeadHash, AsIsoDate, Matches, IsEntryCount, GoodCount, GoodDate, RealOf, IsValue;
    if a.Obj? {
      PropertyIsValue(a, K_CHECKPOINT);
      var checkpoint := Get(a.fields, K_CHECKPOINT);
      IsoDateExact(isoDate, Get(a.fields, K_ISSUED_AT));
      IsoDateExact(isoDate, Get(a.fields, K_EXPIRES_AT));
      if checkpoint.Obj? {
        var c := checkpoint.fields;
        PropertyIsValue(checkpoint, K_ENTRY_COUNT);
        HashExact(Get(c, K_DIRECTORY_LABEL), "directory_receipt_checkpoint");
        HashExact(Get(c, K_IDENTITY_FINGERPRINT), "directory_receipt_checkpoint");
        CountExact(Get(c, K_ENTRY_COUNT));
        EntryCountIsNumber(Get(c, K_ENTRY_COUNT));
        HeadHashExact(Get(c, K_HEAD_HASH));
        DatesAreText(isoDate, Get(a.fields, K_ISSUED_AT), Get(a.fields, K_EXPIRES_AT));
      }
    }
  }

  lemma DatesAreText(isoDate: Text -> Option<Text>, v: Value, w: Value)
    ensures GoodDate(isoDate, v) ==> v.Str? && isoDate(v.s).Some?
    ensures GoodDate(isoDate, w) ==> w.Str? && isoDate(w.s).Some?
  {
  }

  lemma PropertyIsValue(v: Value, key: Text)
    requires IsValue(v) && v.Obj?
    ensures IsValue(Get(v.fields, key))
  {
    GetIsValue(v.fields, key);
  }

  lemma ReceiptExact(isoDate: Text -> Option<Text>, a: Value)
    requires IsValue(a)
    ensures NormalizeReceipt(isoDate, a).Ok? <==> GoodReceipt(isoDate, a)
    ensures GoodReceipt(isoDate, a) ==>
      Parse(CanonicalText(NormalizeReceipt(isoDate, a).value)) == Some(Arr(ReceiptItems(isoDate, a.fields)))
  {
    hide NormalizeReceipt, FormItems, GoodReceipt, CanonicalText, Parse, ReceiptItems;
    ReceiptRule(isoDate, a);
    if GoodReceipt(isoDate, a) {
      ReceiptValid(isoDate, a);
      TextOfItems(NormalizeReceipt(isoDate, a).value);
    }
  }

  // ---------- the roster of a group ----------

  ghost predicate GoodMember(v: Value) {
    && v.Obj? && GoodId(Get(v.fields, K_ACCOUNT_ID)) && GoodId(Get(v.fields, K_DEVICE_ID))
    && GoodKey(Get(v.fields, K_SIGNATURE_PUBLIC_KEY)) && GoodKey(Get(v.fields, K_ACCOUNT_IDENTITY_KEY_HASH))
    && Among(v.fields, {K_ACCOUNT_ID, K_DEVICE_ID, K_SIGNATURE_PUBLIC_KEY, K_ACCOUNT_IDENTITY_KEY_HASH})
  }

  ghost predicate GoodRoster(v: Value) {
    && v.Arr? && 1 <= |v.items| <= 16 && (forall i :: 0 <= i < |v.items| ==> GoodMember(v.items[i]))
    && forall i, j :: 0 <= i < j < |v.items| ==> DeviceOf(v.items[i]) != DeviceOf(v.items[j])
  }

  function DeviceOf(v: Value): Value { if v.Obj? then Get(v.fields, K_DEVICE_ID) else Undefined }

  /** The row that is printed for a member. */
  function RowOf(v: Value): Value {
    if v.Obj? then
      Arr([Get(v.fields, K_ACCOUNT_ID), Get(v.fields, K_DEVICE_ID), Get(v.fields, K_SIGNATURE_PUBLIC_KEY), Get(v.fields, K_ACCOUNT_IDENTITY_KEY_HASH)])
    else Undefined
  }

  function Rows(items: seq<Value>): (rows: seq<Value>)
    ensures |rows| == |items| && forall i :: 0 <= i < |rows| ==> rows[i] == RowOf(items[i])
  {
    seq(|items|, i requires 0 <= i < |items| => RowOf(items[i]))
  }

  predicate IsRow(v: Value) { v.Arr? && |v.items| == 4 && v.items[1].Str? }

  /** The rows in the order of their devices. */
  predicate InOrder(leq: (Text, Text) -> bool, rows: seq<Value>) {
    && (forall i :: 0 <= i < |rows| ==> IsRow(rows[i]))
    && forall i, j :: 0 <= i < j < |rows| ==> leq(rows[i].items[1].s, rows[j].items[1].s)
  }

  lemma MemberExact(v: Value)
    ensures NormalizeMember(v).Ok? <==> GoodMember(v)
    ensures GoodMember(v) ==> MemberValue(NormalizeMember(v).value) == RowOf(v) && Str(NormalizeMember(v).value.deviceId) == DeviceOf(v)
  {
    hide Get, Lit, AsId, Matches, Base64Url.DecodedLength, Base64Url.Encode;
    if v.Obj? {
      var f := v.fields;
      KeyExact(Get(f, K_SIGNATURE_PUBLIC_KEY));
      KeyExact(Get(f, K_ACCOUNT_IDENTITY_KEY_HASH));
      IdExact(Get(f, K_ACCOUNT_ID), "mls_roster_account_id");
      IdExact(Get(f, K_DEVICE_ID), "mls_roster_device_id");
    }
  }

  lemma {:induction false} MembersExact(items: seq<Value>)
    ensures NormalizeMembers(items).Ok? <==> forall i :: 0 <= i < |items| ==> GoodMember(items[i])
    ensures NormalizeMembers(items).Ok? ==>
      var ms := NormalizeMembers(items).value;
      forall i :: 0 <= i < |items| ==> MemberValue(ms[i]) == RowOf(items[i]) && Str(ms[i].deviceId) == DeviceOf(items[i])
  {
    hide NormalizeMember, GoodMember, MemberValue, RowOf, DeviceOf;
    if items != [] {
      var n := |items| - 1;
      MembersExact(items[..n]);
      MemberExact(items[n]);
    }
  }

  lemma DistinctMoves(ms: seq<Member>, sorted: seq<Member>)
    requires multiset(ms) == multiset(sorted)
    ensures DistinctDevices(ms) <==> DistinctDevices(sorted)
  {
    if DistinctDevices(ms) {
      DistinctFrom(ms, sorted);
    }
    if DistinctDevices(sorted) {
      DistinctFrom(sorted, ms);
    }
  }

  lemma DistinctFrom(ms: seq<Member>, sorted: seq<Member>)
    requires multiset(ms) == multiset(sorted) && DistinctDevices(ms)
    ensures DistinctDevices(sorted)
  {
    assert NoDuplicates(ms);
    SameDuplicates(ms, sorted);
    forall i, j | 0 <= i < j < |sorted|
      ensures sorted[i].deviceId != sorted[j].deviceId
    {
      assert sorted[i] in multiset(ms) && sorted[j] in multiset(ms);
      var a :| 0 <= a < |ms| && ms[a] == sorted[i];
      var b :| 0 <= b < |ms| && ms[b] == sorted[j];
      assert sorted[i] != sorted[j];
    }
  }

  /** One element taken out. */
  lemma TakenOut<T>(s: seq<T>, k: nat)
    requires k < |s|
    ensures multiset(s[..k] + s[k + 1..]) == multiset(s) - multiset{s[k]}
  {
    assert s == s[..k] + [s[k]] + s[k + 1..];
  }

  lemma ValuesTakenOut(ms: seq<Member>, k: nat)
    requires k < |ms|
    ensures MemberValues(ms[..k] + ms[k + 1..]) == MemberValues(ms)[..k] + MemberValues(ms)[k + 1..]
  {
  }

  lemma {:induction false} RowsMoved(ms: seq<Member>, sorted: seq<Member>)
    requires multiset(ms) == multiset(sorted)
    ensures multiset(MemberValues(ms)) == multiset(MemberValues(sorted))
    decreases |ms|
  {
    hide MemberValue, MemberValues;
    if ms == [] {
      NothingLeft(sorted);
    } else {
      var k := PlaceOf(ms, sorted);
      TakenOut(ms, 0);
      TakenOut(sorted, k);
      assert ms[..0] + ms[1..] == ms[1..];
      RowsMoved(ms[1..], sorted[..k] + sorted[k + 1..]);
      RowsPutBack(ms, sorted, k);
    }
  }

  lemma NothingLeft(sorted: seq<Member>)
    requires multiset(sorted) == multiset{}
    ensures sorted == []
  {
    assert |multiset(sorted)| == 0;
  }

  lemma PlaceOf(ms: seq<Member>, sorted: seq<Member>) returns (k: nat)
    requires multiset(ms) == multiset(sorted) && ms != []
    ensures k < |sorted| && sorted[k] == ms[0]
  {
    assert ms[0] in multiset(sorted);
    k :| 0 <= k < |sorted| && sorted[k] == ms[0];
  }

  lemma RowsPutBack(ms: seq<Member>, sorted: seq<Member>, k: nat)
    requires ms != [] && k < |sorted| && sorted[k] == ms[0]
    requires multiset(MemberValues(ms[1..])) == multiset(MemberValues(sorted[..k] + sorted[k + 1..]))
    ensures multiset(MemberValues(ms)) == multiset(MemberValues(sorted))
  {
    hide MemberValue;
    var a, b := MemberValues(ms), MemberValues(sorted);
    ValuesTakenOut(sorted, k);
    TakenOut(b, k);
    assert MemberValues(ms[1..]) == a[1..];
    assert a == [a[0]] + a[1..];
    assert multiset(b) == multiset(b[..k] + b[k + 1..]) + multiset{b[k]};
  }

  lemma SortedRows(leq: (Text, Text) -> bool, ms: seq<Member>) returns (sorted: seq<Member>)
    requires TotalOrder(leq)
    ensures sorted == Sort(ByDevice(leq), ms) && multiset(sorted) == multiset(ms)
    ensures InOrder(leq, MemberValues(sorted))
  {
    hide Sort;
    var byDevice := ByDevice(leq);
    sorted := Sort(byDevice, ms);
    SortMultiset(byDevice, ms);
    DevicePreorder(leq, byDevice);
    SortSorted(byDevice, ms);
    forall i, j | 0 <= i < j < |sorted|
      ensures leq(sorted[i].deviceId, sorted[j].deviceId)
    {
      assert byDevice(sorted[i], sorted[j]);
    }
  }

  lemma DevicePreorder(leq: (Text, Text) -> bool, byDevice: (Member, Member) -> bool)
    requires TotalOrder(leq) && forall m: Member, n: Member :: byDevice(m, n) == leq(m.deviceId, n.deviceId)
    ensures TotalPreorder(byDevice)
  {
    forall x: Member, y: Member
      ensures byDevice(x, y) || byDevice(y, x)
    {
      assert leq(x.deviceId, y.deviceId) || leq(y.deviceId, x.deviceId);
    }
    forall x: Member, y: Member, z: Member | byDevice(x, y) && byDevice(y, z)
      ensures byDevice(x, z)
    {
      assert leq(x.deviceId, y.deviceId) && leq(y.deviceId, z.deviceId);
    }
  }

  /** A roster is accepted exactly under these rules, and printed as the rows of its members in the order of the devices. */
  lemma RosterExact(leq: (Text, Text) -> bool, a: Value) returns (rows: seq<Value>)
    requires TotalOrder(leq)
    ensures NormalizeRoster(leq, a).Ok? <==> GoodRoster(a)
    ensures GoodRoster(a) ==> multiset(rows) == multiset(Rows(a.items)) && InOrder(leq, rows)
    ensures GoodRoster(a) ==>
      Parse(CanonicalText(NormalizeRoster(leq, a).value)) == Some(Arr([Str(ROSTER_TAG), Num(ONE), Arr(rows)]))
  {
    hide Sort, ByDevice, NormalizeMembers, CanonicalText, TotalOrder, Parse, GoodMember, MemberValue, RowOf, DeviceOf, InOrder, FormItems;
    rows := [];
    if a.Arr? {
      MembersExact(a.items);
      if NormalizeMembers(a.items).Ok? {
        var ms := NormalizeMembers(a.items).value;
        var sorted := SortedRows(leq, ms);
        DistinctMoves(ms, sorted);
        SameDevices(a.items, ms);
        RowsMoved(ms, sorted);
        rows := MemberValues(sorted);
        assert MemberValues(ms) == Rows(a.items);
        if NormalizeRoster(leq, a).Ok? {
          TextOfItems(Roster(sorted));
          RosterItems(sorted);
        }
      }
    }
  }

  lemma RosterItems(sorted: seq<Member>)
    ensures FormItems(Roster(sorted)) == [Str(ROSTER_TAG), Num(ONE), Arr(MemberValues(sorted))]
  {
  }

  lemma SameDevices(items: seq<Value>, ms: seq<Member>)
    requires |items| == |ms| && forall i :: 0 <= i < |items| ==> Str(ms[i].deviceId) == DeviceOf(items[i])
    ensures DistinctDevices(ms) <==> forall i, j :: 0 <= i < j < |items| ==> DeviceOf(items[i]) != DeviceOf(items[j])
  {
    hide DeviceOf;
    if DistinctDevices(ms) {
      forall i, j | 0 <= i < j < |items|
        ensures DeviceOf(items[i]) != DeviceOf(items[j])
      {
        assert ms[i].deviceId != ms[j].deviceId;
      }
    }
    if forall i, j :: 0 <= i < j < |items| ==> DeviceOf(items[i]) != DeviceOf(items[j]) {
      forall i, j | 0 <= i < j < |ms|
        ensures ms[i].deviceId != ms[j].deviceId
      {
        assert DeviceOf(items[i]) != DeviceOf(items[j]);
      }
    }
  }

  // ---------- names ----------

  /** The names and words of the source. */
  lemma Words1()
    ensures K_ACCOUNT_ID == Lit("accountId") && K_ACCOUNT_IDENTITY_KEY_HASH == Lit("accountIdentityKeyHash")
    ensures K_ACCOUNT_IDENTITY_PUBLIC_KEY == Lit("accountIdentityPublicKey") && K_ACCOUNT_IDENTITY_SIGNATURE == Lit("accountIdentitySignature")
    ensures K_CAPABILITIES == Lit("capabilities") && K_CHALLENGE == Lit("challenge")
    ensures K_CHALLENGE_ID == Lit("challengeId")
  {
  }

  lemma Words2()
    ensures K_CHECKPOINT == Lit("checkpoint") && K_CLIENT_ENVELOPE_ID == Lit("clientEnvelopeId")
    ensures K_CREDENTIAL == Lit("credential") && K_DEVICE_ID == Lit("deviceId")
    ensures K_DIRECTORY_LABEL == Lit("directoryLabel") && K_DISPLAY_NAME == Lit("displayName")
    ensures K_ENTRY_COUNT == Lit("entryCount")
  {
  }

  lemma Words3()
    ensures K_EPOCH == Lit("epoch") && K_EXPIRES_AT == Lit("expiresAt")
    ensures K_HEAD_HASH == Lit("headHash") && K_IDENTITY_FINGERPRINT == Lit("identityFingerprint")
    ensures K_ISSUED_AT == Lit("issuedAt") && K_ISSUER == Lit("issuer")
    ensures K_KIND == Lit("kind")
  {
  }

  lemma Words4()
    ensures K_OPERATION_ID == Lit("operationId") && K_PLATFORM == Lit("platform")
    ensures K_PROTOCOL_VERSION == Lit("protocolVersion") && K_ROSTER_HASH == Lit("rosterHash")
    ensures K_SENDER_ACCOUNT_ID == Lit("senderAccountId") && K_SENDER_DEVICE_ID == Lit("senderDeviceId")
    ensures K_SIGNATURE_PUBLIC_KEY == Lit("signaturePublicKey")
  {
  }

  lemma Words5()
    ensures K_THREAD_ID == Lit("threadId") && K_VERSION == Lit("version")
    ensures RECEIPT_TAG == Lit("VOLNA-CHAT-KEY-DIRECTORY-RECEIPT") && AAD_TAG == Lit("VOLNA-CHAT-AAD")
    ensures TRANSFER_TAG == Lit("VOLNA-CHAT-TRANSFER-DEVICE") && ROSTER_TAG == Lit("VOLNA-CHAT-MLS-ROSTER")
    ensures REGISTRATION_TAG == Lit("VOLNA-CHAT-DEVICE-REGISTRATION")
  {
  }

  lemma Words6()
    ensures AUTHORIZATION_TAG == Lit("VOLNA-CHAT-DEVICE-AUTHORIZATION") && DIRECTORY_ISSUER == Lit("volna_directory_v1")
    ensures IOS == Lit("ios") && ANDROID == Lit("android")
    ensures WEB == Lit("web") && APPLICATION == Lit("APPLICATION")
    ensures COMMIT == Lit("COMMIT")
  {
  }

  lemma Words7()
    ensures ONE == Dec(false, [1], 1)
  {
  }
}
