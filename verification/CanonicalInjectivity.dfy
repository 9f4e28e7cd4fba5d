/** What the canonical encodings bind: equal bytes mean equal normal forms, across all six. */
module CanonicalInjectivity {
  import opened Wrappers
  import opened Unicode
  import opened Json
  import opened JsonNumbers
  import opened JsonBytes
  import opened Validators
  import opened Ordering
  import opened CanonicalForms

  /** The one number that an input chooses is a double. */
  predicate ValidForm(f: Form) { f.Receipt? ==> ValidFloat(f.entryCount) }

  lemma TagsDiffer()
    ensures RECEIPT_TAG != AAD_TAG && RECEIPT_TAG != TRANSFER_TAG && RECEIPT_TAG != ROSTER_TAG
    ensures RECEIPT_TAG != REGISTRATION_TAG && RECEIPT_TAG != AUTHORIZATION_TAG
    ensures AAD_TAG != TRANSFER_TAG && AAD_TAG != ROSTER_TAG && AAD_TAG != REGISTRATION_TAG && AAD_TAG != AUTHORIZATION_TAG
    ensures TRANSFER_TAG != ROSTER_TAG && TRANSFER_TAG != REGISTRATION_TAG && TRANSFER_TAG != AUTHORIZATION_TAG
    ensures ROSTER_TAG != REGISTRATION_TAG && ROSTER_TAG != AUTHORIZATION_TAG && REGISTRATION_TAG != AUTHORIZATION_TAG
  {
    assert |RECEIPT_TAG| == 32 && |AAD_TAG| == 14 && |TRANSFER_TAG| == 26;
    assert |ROSTER_TAG| == 21 && |REGISTRATION_TAG| == 30 && |AUTHORIZATION_TAG| == 31;
  }

  lemma StringsInjective(a: seq<Text>, b: seq<Text>)
    requires Strings(a) == Strings(b)
    ensures a == b
  {
    forall i | 0 <= i < |a|
      ensures a[i] == b[i]
    {
      assert Strings(a)[i] == Strings(b)[i];
    }
    assert |Strings(a)| == |a|;
  }

  lemma MembersInjective(a: seq<Member>, b: seq<Member>)
    requires MemberValues(a) == MemberValues(b)
    ensures a == b
  {
    assert |MemberValues(a)| == |a| && |MemberValues(b)| == |b|;
    forall i | 0 <= i < |a|
      ensures a[i] == b[i]
    {
      assert MemberValues(a)[i] == MemberValues(b)[i];
      var x := [a[i].accountId, a[i].deviceId, a[i].signatureKey, a[i].identityHash];
      var y := [b[i].accountId, b[i].deviceId, b[i].signatureKey, b[i].identityHash];
      StringsInjective(x, y);
      assert x[0] == y[0] && x[1] == y[1] && x[2] == y[2] && x[3] == y[3];
    }
  }

  lemma SameTag(f: Form, g: Form)
    requires FormItems(f) == FormItems(g)
    ensures f.Receipt? == g.Receipt? && f.Aad? == g.Aad? && f.TransferDevice? == g.TransferDevice?
    ensures f.Roster? == g.Roster? && f.Registration? == g.Registration? && f.Authorization? == g.Authorization?
  {
    TagsDiffer();
    assert FormItems(f)[0] == FormItems(g)[0];
  }

  lemma ReceiptInjective(f: Form, g: Form)
    requires f.Receipt? && g.Receipt? && FormItems(f) == FormItems(g)
    ensures f == g
  {
    var a, b := FormItems(f), FormItems(g);
    assert a[3] == b[3] && a[4] == b[4] && a[5] == b[5] && a[6] == b[6] && a[7] == b[7] && a[8] == b[8];
  }

  lemma AadInjective(f: Form, g: Form)
    requires f.Aad? && g.Aad? && FormItems(f) == FormItems(g)
    ensures f == g
  {
    var a, b := FormItems(f), FormItems(g);
    assert a[2] == b[2] && a[3] == b[3] && a[4] == b[4] && a[5] == b[5] && a[6] == b[6] && a[7] == b[7];
    assert a[8] == b[8] && a[9] == b[9];
  }

  lemma TransferDeviceInjective(f: Form, g: Form)
    requires f.TransferDevice? && g.TransferDevice? && FormItems(f) == FormItems(g)
    ensures f == g
  {
    var a, b := FormItems(f), FormItems(g);
    assert a[2] == b[2] && a[3] == b[3] && a[4] == b[4] && a[5] == b[5] && a[6] == b[6] && a[7] == b[7];
    assert a[8] == b[8] && a[9] == b[9];
    StringsInjective(f.capabilities, g.capabilities);
  }

  lemma RosterInjective(f: Form, g: Form)
    requires f.Roster? && g.Roster? && FormItems(f) == FormItems(g)
    ensures f == g
  {
    var a, b := FormItems(f), FormItems(g);
    assert a[2] == b[2];
    MembersInjective(f.members, g.members);
  }

  lemma RegistrationInjective(f: Form, g: Form)
    requires f.Registration? && g.Registration? && FormItems(f) == FormItems(g)
    ensures f == g
  {
    var a, b := FormItems(f), FormItems(g);
    assert a[2] == b[2] && a[3] == b[3] && a[4] == b[4] && a[5] == b[5] && a[6] == b[6] && a[7] == b[7];
    assert a[8] == b[8] && a[9] == b[9] && a[10] == b[10] && a[11] == b[11] && a[12] == b[12];
    StringsInjective(f.capabilities, g.capabilities);
  }

  lemma AuthorizationInjective(f: Form, g: Form)
    requires f.Authorization? && g.Authorization? && FormItems(f) == FormItems(g)
    ensures f == g
  {
    var a, b := FormItems(f), FormItems(g);
    assert a[2] == b[2] && a[3] == b[3] && a[4] == b[4] && a[5] == b[5] && a[6] == b[6] && a[7] == b[7];
    assert a[8] == b[8];
    StringsInjective(f.capabilities, g.capabilities);
  }

  /** The printed array determines the form. */
  lemma ItemsInjective(f: Form, g: Form)
    requires FormItems(f) == FormItems(g)
    ensures f == g
  {
    hide FormItems;
    SameTag(f, g);
    match f
    case Receipt(_, _, _, _, _, _) => ReceiptInjective(f, g);
    case Aad(_, _, _, _, _, _, _) => AadInjective(f, g);
    case TransferDevice(_, _, _, _, _, _, _, _) => TransferDeviceInjective(f, g);
    case Roster(_) => RosterInjective(f, g);
    case Registration(_, _, _, _, _, _, _, _, _, _, _) => RegistrationInjective(f, g);
    case Authorization(_, _, _, _, _, _, _) => AuthorizationInjective(f, g);
  }

  lemma FormIsJson(f: Form)
    requires ValidForm(f)
    ensures IsJson(Arr(FormItems(f)))
  {
    assert ValidFloat(ONE);
    if f.Roster? {
      MembersAreJson(f.members);
    }
  }

  lemma MembersAreJson(ms: seq<Member>)
    ensures IsJson(Arr(MemberValues(ms)))
  {
    forall i | 0 <= i < |ms|
      ensures IsJson(MemberValues(ms)[i])
    {
    }
  }

  /** Canonical bytes are equal exactly when the normal forms are, whichever of the six they belong to. */
  lemma CanonicalBytesInjective(f: Form, g: Form)
    requires ValidForm(f) && ValidForm(g)
    ensures Bytes(CanonicalText(f)) == Bytes(CanonicalText(g)) <==> f == g
    ensures CanonicalText(f) == CanonicalText(g) <==> f == g
  {
    hide FormItems;
    FormIsJson(f);
    FormIsJson(g);
    var v, w := Arr(FormItems(f)), Arr(FormItems(g));
    DocumentRoundTrip(v);
    DocumentRoundTrip(w);
    if v == w {
      ItemsInjective(f, g);
    }
  }

  // ---------- what the lists forget ----------

  /** A capability list counts as a set: order and repetition disappear. */
  lemma CapabilitiesAreASet(a: seq<Text>, b: seq<Text>)
    ensures SortedSet(a) == SortedSet(b) <==> SameSet(a, b)
  {
    TextOrder();
    DistinctElements(a);
    DistinctElements(b);
    SortMultiset(TextLeq, Distinct(a));
    SortMultiset(TextLeq, Distinct(b));
    if SameSet(a, b) {
      SameElements(Distinct(a), Distinct(b));
      SortUnique(TextLeq, Distinct(a), Distinct(b));
    }
    if SortedSet(a) == SortedSet(b) {
      forall t | t in a
        ensures t in b
      {
        assert t in SortedSet(b);
      }
      forall t | t in b
        ensures t in a
      {
        assert t in SortedSet(a);
      }
    }
  }

  /** The capability list that is printed has no duplicates and is in code-unit order. */
  lemma CapabilitiesSorted(a: seq<Text>)
    ensures Sorted(TextLeq, SortedSet(a)) && NoDuplicates(SortedSet(a))
    ensures forall t :: t in SortedSet(a) <==> t in a
  {
    TextOrder();
    DistinctElements(a);
    SortSorted(TextLeq, Distinct(a));
    SortMultiset(TextLeq, Distinct(a));
    SameDuplicates(Distinct(a), SortedSet(a));
  }

  ghost predicate TotalOrder(leq: (Text, Text) -> bool) {
    TotalPreorder(leq) && forall a, b :: leq(a, b) && leq(b, a) ==> a == b
  }

  /** Members with distinct devices are separated by an order of the devices. */
  lemma DevicesSeparate(leq: (Text, Text) -> bool, byDevice: (Member, Member) -> bool, ms: seq<Member>)
    requires TotalOrder(leq) && DistinctDevices(ms)
    requires forall m: Member, n: Member :: byDevice(m, n) == leq(m.deviceId, n.deviceId)
    ensures TotalPreorder(byDevice) && Separates(byDevice, ms) && NoDuplicates(ms)
  {
    forall x, y | x in ms && y in ms && byDevice(x, y) && byDevice(y, x)
      ensures x == y
    {
      var i :| 0 <= i < |ms| && ms[i] == x;
      var j :| 0 <= j < |ms| && ms[j] == y;
      assert x.deviceId == y.deviceId;
    }
    forall x: Member, y: Member
      ensures byDevice(x, y) || byDevice(y, x)
    {
      assert leq(x.deviceId, y.deviceId) || leq(y.deviceId, x.deviceId);
    }
    forall x: Member, y: Member, z: Member | byDevice(x, y) && byDevice(y, z)
      ensures byDevice(x, z)
    {
      assert leq(x.deviceId, y.deviceId) && leq(y.deviceId, z.deviceId);
    }
  }

  lemma SortedDistinct(byDevice: (Member, Member) -> bool, ms: seq<Member>)
    requires DistinctDevices(Sort(byDevice, ms))
    ensures NoDuplicates(Sort(byDevice, ms)) && forall m :: m in Sort(byDevice, ms) <==> m in ms
  {
    SortMultiset(byDevice, ms);
  }

  /** Sorted rosters without duplicates coincide exactly when they have the same members. */
  lemma SortedRosters(leq: (Text, Text) -> bool, ma: seq<Member>, mb: seq<Member>)
    requires TotalOrder(leq)
    requires DistinctDevices(Sort(ByDevice(leq), ma)) && DistinctDevices(Sort(ByDevice(leq), mb))
    ensures Sort(ByDevice(leq), ma) == Sort(ByDevice(leq), mb) <==> SameSet(ma, mb)
  {
    hide Sort;
    var byDevice := ByDevice(leq);
    var sa, sb := Sort(byDevice, ma), Sort(byDevice, mb);
    SortedDistinct(byDevice, ma);
    SortedDistinct(byDevice, mb);
    if SameSet(ma, mb) {
      SameElements(sa, sb);
      DevicesSeparate(leq, byDevice, sa);
      SortSorted(byDevice, ma);
      SortSorted(byDevice, mb);
      SortedUnique(byDevice, sa, sb);
    }
    if sa == sb {
      forall m | m in ma
        ensures m in mb
      {
        assert m in sb;
      }
      forall m | m in mb
        ensures m in ma
      {
        assert m in sa;
      }
    }
  }

  /** Two accepted rosters have the same canonical text exactly when they list the same members,
      in whatever order. */
  lemma RosterIsASet(leq: (Text, Text) -> bool, a: Value, b: Value)
    requires TotalOrder(leq)
    requires NormalizeRoster(leq, a).Ok? && NormalizeRoster(leq, b).Ok?
    ensures var ma, mb := NormalizeMembers(a.items).value, NormalizeMembers(b.items).value;
            CanonicalText(NormalizeRoster(leq, a).value) == CanonicalText(NormalizeRoster(leq, b).value)
            <==> SameSet(ma, mb)
  {
    hide Sort, ByDevice, NormalizeMembers, CanonicalText, DistinctDevices, TotalOrder;
    var sa := Sort(ByDevice(leq), NormalizeMembers(a.items).value);
    var sb := Sort(ByDevice(leq), NormalizeMembers(b.items).value);
    assert NormalizeRoster(leq, a).value == Roster(sa) && NormalizeRoster(leq, b).value == Roster(sb);
    assert Roster(sa) == Roster(sb) <==> sa == sb;
    SortedRosters(leq, NormalizeMembers(a.items).value, NormalizeMembers(b.items).value);
    CanonicalBytesInjective(NormalizeRoster(leq, a).value, NormalizeRoster(leq, b).value);
  }

  // ---------- what an authorization binds ----------

  /** The capabilities that an accepted input lists. */
  function CapabilityTexts(v: Value): seq<Text> {
    var list := if v.Obj? then Get(v.fields, K_CAPABILITIES) else Undefined;
    if list.Arr? && AsTexts(list.items, 80, "").Ok? then AsTexts(list.items, 80, "").value else []
  }

  lemma {:induction false} TextsIgnoreCode(items: seq<Value>, maxLength: nat, c: string, d: string)
    ensures AsTexts(items, maxLength, c).Ok? == AsTexts(items, maxLength, d).Ok?
    ensures AsTexts(items, maxLength, c).Ok? ==> AsTexts(items, maxLength, c).value == AsTexts(items, maxLength, d).value
  {
    if items != [] {
      TextsIgnoreCode(items[..|items| - 1], maxLength, c, d);
    }
  }

  lemma CapabilitiesOf(v: Value, listCode: string, itemCode: string)
    requires v.Obj? && AsCapabilities(Get(v.fields, K_CAPABILITIES), listCode, itemCode).Ok?
    ensures AsCapabilities(Get(v.fields, K_CAPABILITIES), listCode, itemCode).value == SortedSet(CapabilityTexts(v))
  {
    TextsIgnoreCode(Get(v.fields, K_CAPABILITIES).items, 80, "", itemCode);
  }

  /** The scalar properties that a device form copies, and the display name that it trims. */
  predicate CopiesDevice(a: Value, accountId: Text, deviceId: Text, platform: Text, displayName: Text, credential: Text,
                         signatureKey: Text)
  {
    && a.Obj?
    && Get(a.fields, K_ACCOUNT_ID) == Str(accountId)
    && Get(a.fields, K_DEVICE_ID) == Str(deviceId)
    && Get(a.fields, K_PLATFORM) == Str(platform)
    && Get(a.fields, K_DISPLAY_NAME).Str? && displayName == Trim(Get(a.fields, K_DISPLAY_NAME).s)
    && Get(a.fields, K_CREDENTIAL) == Str(credential)
    && Get(a.fields, K_SIGNATURE_PUBLIC_KEY) == Str(signatureKey)
  }

  /** Two inputs agree on what a device form binds. */
  predicate SameDevice(a: Value, b: Value) {
    && a.Obj? && b.Obj?
    && Get(a.fields, K_ACCOUNT_ID) == Get(b.fields, K_ACCOUNT_ID)
    && Get(a.fields, K_DEVICE_ID) == Get(b.fields, K_DEVICE_ID)
    && Get(a.fields, K_PLATFORM) == Get(b.fields, K_PLATFORM)
    && Get(a.fields, K_CREDENTIAL) == Get(b.fields, K_CREDENTIAL)
    && Get(a.fields, K_SIGNATURE_PUBLIC_KEY) == Get(b.fields, K_SIGNATURE_PUBLIC_KEY)
    && Get(a.fields, K_DISPLAY_NAME).Str? && Get(b.fields, K_DISPLAY_NAME).Str?
    && Trim(Get(a.fields, K_DISPLAY_NAME).s) == Trim(Get(b.fields, K_DISPLAY_NAME).s)
  }

  lemma AuthorizationParts(a: Value)
    requires NormalizeAuthorization(a).Ok?
    ensures var f := NormalizeAuthorization(a).value;
            && f.Authorization?
            && CopiesDevice(a, f.accountId, f.deviceId, f.platform, f.displayName, f.credential, f.signatureKey)
            && f.capabilities == SortedSet(CapabilityTexts(a))
  {
    hide Get, OnlyKeys, IsId, Trim, AsCapabilities, Base64Url.DecodedLength, SortedSet, CapabilityTexts;
    CapabilitiesOf(a, "device_capabilities", "device_capability");
  }

  lemma TransferParts(a: Value)
    requires NormalizeTransferDevice(a).Ok?
    ensures var f := NormalizeTransferDevice(a).value;
            && f.TransferDevice?
            && CopiesDevice(a, f.accountId, f.deviceId, f.platform, f.displayName, f.credential, f.signatureKey)
            && Get(a.fields, K_ACCOUNT_IDENTITY_PUBLIC_KEY) == Str(f.identityKey)
            && f.capabilities == SortedSet(CapabilityTexts(a))
  {
    hide Get, OnlyKeys, IsId, Trim, AsCapabilities, IsCapabilityList, Base64Url.DecodedLength, SortedSet, CapabilityTexts;
    CapabilitiesOf(a, "transfer_device_capabilities", "transfer_device_capability");
  }

  lemma RegistrationParts(a: Value)
    requires NormalizeRegistration(a).Ok?
    ensures var f := NormalizeRegistration(a).value;
            && f.Registration?
            && CopiesDevice(a, f.accountId, f.deviceId, f.platform, f.displayName, f.credential, f.signatureKey)
            && Get(a.fields, K_CHALLENGE_ID) == Str(f.challengeId) && Get(a.fields, K_CHALLENGE) == Str(f.challenge)
            && Get(a.fields, K_ACCOUNT_IDENTITY_PUBLIC_KEY) == Str(f.identityKey)
            && Get(a.fields, K_ACCOUNT_IDENTITY_SIGNATURE) == Str(f.identitySignature)
            && f.capabilities == SortedSet(CapabilityTexts(a))
  {
    hide Get, OnlyKeys, IsId, Trim, AsCapabilities, Base64Url.DecodedLength, SortedSet, CapabilityTexts;
    CapabilitiesOf(a, "device_capabilities", "device_capability");
  }

  /** Two authorizations sign the same text exactly when they agree on every property, where the
      display name counts without surrounding white space and the capabilities count as a set. */
  lemma AuthorizationBinds(a: Value, b: Value)
    requires NormalizeAuthorization(a).Ok? && NormalizeAuthorization(b).Ok?
    ensures CanonicalText(NormalizeAuthorization(a).value) == CanonicalText(NormalizeAuthorization(b).value)
       <==> SameDevice(a, b) && SameSet(CapabilityTexts(a), CapabilityTexts(b))
  {
    hide NormalizeAuthorization, Get, Trim, SortedSet, CapabilityTexts, CanonicalText;
    AuthorizationParts(a);
    AuthorizationParts(b);
    CanonicalBytesInjective(NormalizeAuthorization(a).value, NormalizeAuthorization(b).value);
    CapabilitiesAreASet(CapabilityTexts(a), CapabilityTexts(b));
  }

  /** The same for the draft of a device transfer, which also binds the account identity key. */
  lemma TransferBinds(a: Value, b: Value)
    requires NormalizeTransferDevice(a).Ok? && NormalizeTransferDevice(b).Ok?
    ensures CanonicalText(NormalizeTransferDevice(a).value) == CanonicalText(NormalizeTransferDevice(b).value)
       <==> SameDevice(a, b)
            && Get(a.fields, K_ACCOUNT_IDENTITY_PUBLIC_KEY) == Get(b.fields, K_ACCOUNT_IDENTITY_PUBLIC_KEY)
            && SameSet(CapabilityTexts(a), CapabilityTexts(b))
  {
    hide NormalizeTransferDevice, Get, Trim, SortedSet, CapabilityTexts, CanonicalText;
    TransferParts(a);
    TransferParts(b);
    CanonicalBytesInjective(NormalizeTransferDevice(a).value, NormalizeTransferDevice(b).value);
    CapabilitiesAreASet(CapabilityTexts(a), CapabilityTexts(b));
  }

  /** The same for a registration proof, which also binds the challenge and the identity signature. */
  lemma RegistrationBinds(a: Value, b: Value)
    requires NormalizeRegistration(a).Ok? && NormalizeRegistration(b).Ok?
    ensures CanonicalText(NormalizeRegistration(a).value) == CanonicalText(NormalizeRegistration(b).value)
       <==> SameDevice(a, b)
            && Get(a.fields, K_CHALLENGE_ID) == Get(b.fields, K_CHALLENGE_ID)
            && Get(a.fields, K_CHALLENGE) == Get(b.fields, K_CHALLENGE)
            && Get(a.fields, K_ACCOUNT_IDENTITY_PUBLIC_KEY) == Get(b.fields, K_ACCOUNT_IDENTITY_PUBLIC_KEY)
            && Get(a.fields, K_ACCOUNT_IDENTITY_SIGNATURE) == Get(b.fields, K_ACCOUNT_IDENTITY_SIGNATURE)
            && SameSet(CapabilityTexts(a), CapabilityTexts(b))
  {
    hide NormalizeRegistration, Get, Trim, SortedSet, CapabilityTexts, CanonicalText;
    RegistrationParts(a);
    RegistrationParts(b);
    CanonicalBytesInjective(NormalizeRegistration(a).value, NormalizeRegistration(b).value);
    CapabilitiesAreASet(CapabilityTexts(a), CapabilityTexts(b));
  }

  // ---------- what the envelope data and the directory receipt bind ----------

  /** An optional property: absent and null are the same. */
  function Present(v: Value): Value { if IsMissing(v) then Null else v }

  predicate SamePresent(a: Value, b: Value, key: Text) {
    a.Obj? && b.Obj? && Present(Get(a.fields, key)) == Present(Get(b.fields, key))
  }

  predicate SameProperty(a: Value, b: Value, key: Text) {
    a.Obj? && b.Obj? && Get(a.fields, key) == Get(b.fields, key)
  }

  lemma AadParts(a: Value)
    requires NormalizeAad(a).Ok?
    ensures var f := NormalizeAad(a).value;
            && a.Obj? && f.Aad?
            && Get(a.fields, K_THREAD_ID) == Str(f.threadId) && Get(a.fields, K_SENDER_ACCOUNT_ID) == Str(f.senderAccountId)
            && Get(a.fields, K_SENDER_DEVICE_ID) == Str(f.senderDeviceId) && Get(a.fields, K_CLIENT_ENVELOPE_ID) == Str(f.envelopeId)
            && Get(a.fields, K_KIND) == Str(f.kind) && Get(a.fields, K_EPOCH) == Str(f.epoch)
            && Present(Get(a.fields, K_OPERATION_ID)) == (if f.transition.None? then Null else Str(f.transition.value.operationId))
            && Present(Get(a.fields, K_ROSTER_HASH)) == (if f.transition.None? then Null else Str(f.transition.value.rosterHash))
            && (f.transition.Some? <==> f.kind == COMMIT)
  {
    hide Get, OnlyKeys, IsId, IsHash, IsEpoch;
    assert |APPLICATION| == 11 && |COMMIT| == 6;
  }

  /** Two envelopes have the same additional data exactly when they agree on all eight properties
      besides the protocol version, absent and null being the same. */
  lemma AadBinds(a: Value, b: Value)
    requires NormalizeAad(a).Ok? && NormalizeAad(b).Ok?
    ensures CanonicalText(NormalizeAad(a).value) == CanonicalText(NormalizeAad(b).value)
       <==> (&& SameProperty(a, b, K_THREAD_ID) && SameProperty(a, b, K_SENDER_ACCOUNT_ID)
             && SameProperty(a, b, K_SENDER_DEVICE_ID) && SameProperty(a, b, K_CLIENT_ENVELOPE_ID)
             && SameProperty(a, b, K_KIND) && SameProperty(a, b, K_EPOCH)
             && SamePresent(a, b, K_OPERATION_ID) && SamePresent(a, b, K_ROSTER_HASH))
  {
    hide NormalizeAad, Get, CanonicalText, Present;
    AadParts(a);
    AadParts(b);
    CanonicalBytesInjective(NormalizeAad(a).value, NormalizeAad(b).value);
  }

  lemma ReceiptParts(isoDate: Text -> Option<Text>, a: Value)
    requires NormalizeReceipt(isoDate, a).Ok?
    ensures var f := NormalizeReceipt(isoDate, a).value;
            && a.Obj? && f.Receipt? && Get(a.fields, K_CHECKPOINT).Obj?
            && var c := Get(a.fields, K_CHECKPOINT).fields;
            && Get(c, K_DIRECTORY_LABEL) == Str(f.directoryLabel) && Get(c, K_IDENTITY_FINGERPRINT) == Str(f.fingerprint)
            && Get(c, K_ENTRY_COUNT) == Num(f.entryCount) && Get(c, K_HEAD_HASH) == OrNull(f.headHash)
            && Get(a.fields, K_ISSUED_AT).Str? && isoDate(Get(a.fields, K_ISSUED_AT).s) == Some(f.issuedAt)
            && Get(a.fields, K_EXPIRES_AT).Str? && isoDate(Get(a.fields, K_EXPIRES_AT).s) == Some(f.expiresAt)
            && (f.headHash.None? <==> f.entryCount.Zero?)
  {
    hide Get, OnlyKeys, IsHash, IsIsoDate, IsEntryCount;
    var c := Get(a.fields, K_CHECKPOINT).fields;
    EntryCountIsNumber(Get(c, K_ENTRY_COUNT));
  }

  lemma EntryCountIsNumber(v: Value)
    ensures IsEntryCount(v) ==> v.Num?
  {
  }

  lemma ReceiptValid(isoDate: Text -> Option<Text>, a: Value)
    requires IsValue(a) && NormalizeReceipt(isoDate, a).Ok?
    ensures ValidForm(NormalizeReceipt(isoDate, a).value)
  {
    hide NormalizeReceipt, Get;
    ReceiptParts(isoDate, a);
    GetIsValue(a.fields, K_CHECKPOINT);
    GetIsValue(Get(a.fields, K_CHECKPOINT).fields, K_ENTRY_COUNT);
  }

  /** Two receipts have the same bytes exactly when they carry the same checkpoint and their dates
      name the same instants. */
  lemma ReceiptBinds(isoDate: Text -> Option<Text>, a: Value, b: Value)
    requires IsValue(a) && IsValue(b) && NormalizeReceipt(isoDate, a).Ok? && NormalizeReceipt(isoDate, b).Ok?
    ensures Get(a.fields, K_CHECKPOINT).Obj? && Get(b.fields, K_CHECKPOINT).Obj?
    ensures Bytes(CanonicalText(NormalizeReceipt(isoDate, a).value)) == Bytes(CanonicalText(NormalizeReceipt(isoDate, b).value))
       <==> (var c, d := Get(a.fields, K_CHECKPOINT), Get(b.fields, K_CHECKPOINT);
             && SameProperty(c, d, K_DIRECTORY_LABEL) && SameProperty(c, d, K_IDENTITY_FINGERPRINT)
             && SameProperty(c, d, K_ENTRY_COUNT) && SameProperty(c, d, K_HEAD_HASH)
             && isoDate(Get(a.fields, K_ISSUED_AT).s) == isoDate(Get(b.fields, K_ISSUED_AT).s)
             && isoDate(Get(a.fields, K_EXPIRES_AT).s) == isoDate(Get(b.fields, K_EXPIRES_AT).s))
  {
    hide NormalizeReceipt, Get, CanonicalText, Bytes;
    ReceiptParts(isoDate, a);
    ReceiptParts(isoDate, b);
    ReceiptValid(isoDate, a);
    ReceiptValid(isoDate, b);
    CanonicalBytesInjective(NormalizeReceipt(isoDate, a).value, NormalizeReceipt(isoDate, b).value);
  }
}
