/** An encrypted JSON document in one slot of AsyncStorage, as both durable queues keep it. */
module SealedStore {
  import opened Wrappers
  import opened Unicode
  import opened JsonNumbers
  import opened Json
  import opened Validators
  import opened JsonBytes
  import opened Base64Url

  const TAG_BYTES := 16
  const NONCE_BYTES := 24

  const K_V: Text := Lit("v")
  const K_NONCE: Text := Lit("nonce")
  const K_CIPHERTEXT: Text := Lit("ciphertext")

  /** One key and one associated data of XChaCha20-Poly1305. */
  datatype Aead = Aead(seal: (seq<Byte>, seq<Byte>) -> seq<Byte>, open: (seq<Byte>, seq<Byte>) -> Option<seq<Byte>>)

  /** Opening inverts sealing, and the tag takes 16 bytes (section 2.8 of RFC 8439). */
  ghost predicate Lawful(aead: Aead) {
    forall nonce, plain :: Sealed(aead, nonce, plain)
  }

  predicate Sealed(aead: Aead, nonce: seq<Byte>, plain: seq<Byte>) {
    var cipher := aead.seal(nonce, plain);
    |cipher| == |plain| + TAG_BYTES && aead.open(nonce, cipher) == Some(plain)
  }

  function Envelope(nonce: seq<Byte>, cipher: seq<Byte>): Value {
    Obj([Field(K_V, Num(ONE)), Field(K_NONCE, Str(Encode(nonce))), Field(K_CIPHERTEXT, Str(Encode(cipher)))])
  }

  /** The text that is stored for a document, or None when it is over the limit. */
  function Seal(aead: Aead, nonce: seq<Byte>, document: Value, maxPlain: nat): Option<Text> {
    var plain := DocumentBytes(document);
    if |plain| > maxPlain then None else Some(Print(Envelope(nonce, aead.seal(nonce, plain))))
  }

  /** base64UrlToBytes, what Base64Url.Base64UrlToBytes computes. */
  function ToBytes(s: Text, maxBytes: nat): Option<seq<Byte>> {
    if Canonical(s) && |s| * 6 / 8 <= maxBytes then Some(Decode(s)) else None
  }

  function Unseal(aead: Aead, stored: Text, maxCipher: nat): Option<Value> {
    var envelope :- Parse(stored);
    if !envelope.Obj? then None
    else
      var nonceText := Get(envelope.fields, K_NONCE);
      var cipherText := Get(envelope.fields, K_CIPHERTEXT);
      if Get(envelope.fields, K_V) != Num(ONE) || !nonceText.Str? || !cipherText.Str? then None
      else
        var nonce :- ToBytes(nonceText.s, NONCE_BYTES);
        var cipher :- ToBytes(cipherText.s, maxCipher);
        var plain :- aead.open(nonce, cipher);
        ReadDocument(plain)
  }

  lemma ToBytesEncoded(b: seq<Byte>, maxBytes: nat)
    requires b != []
    ensures ToBytes(Encode(b), maxBytes) == if |b| <= maxBytes then Some(b) else None
  {
    hide Encode, Decode;
    EncodeAccepted(b, "");
  }

  lemma EnvelopeFields(nonce: seq<Byte>, cipher: seq<Byte>)
    ensures IsJson(Envelope(nonce, cipher))
    ensures Get(Envelope(nonce, cipher).fields, K_V) == Num(ONE)
    ensures Get(Envelope(nonce, cipher).fields, K_NONCE) == Str(Encode(nonce))
    ensures Get(Envelope(nonce, cipher).fields, K_CIPHERTEXT) == Str(Encode(cipher))
  {
    hide Encode;
    assert |K_V| == 1 && |K_NONCE| == 5 && |K_CIPHERTEXT| == 10;
    var f := Envelope(nonce, cipher).fields;
    assert f[1..][0] == f[1] && f[1..][1..][0] == f[2];
    assert Get(f, K_NONCE) == Get(f[1..], K_NONCE);
    assert Get(f, K_CIPHERTEXT) == Get(f[1..], K_CIPHERTEXT) == Get(f[1..][1..], K_CIPHERTEXT);
  }

  /** Whatever fits is read back: the plaintext limit plus the tag never exceeds the limit of the reader,
      and nothing else of the reader refuses. */
  lemma SealRoundTrip(aead: Aead, nonce: seq<Byte>, document: Value, maxPlain: nat)
    requires Lawful(aead) && |nonce| == NONCE_BYTES && IsJson(document)
    requires Seal(aead, nonce, document, maxPlain).Some?
    ensures Unseal(aead, Seal(aead, nonce, document, maxPlain).value, maxPlain + TAG_BYTES) == Some(document)
  {
    hide Encode, ToBytes, DocumentBytes, Get, IsJson, Print, Envelope;
    var plain := DocumentBytes(document);
    var cipher := aead.seal(nonce, plain);
    assert Sealed(aead, nonce, plain);
    EnvelopeFields(nonce, cipher);
    assert Envelope(nonce, cipher).Obj? by { EnvelopeShape(nonce, cipher); }
    RoundTrip(Envelope(nonce, cipher));
    ToBytesEncoded(nonce, NONCE_BYTES);
    ToBytesEncoded(cipher, maxPlain + TAG_BYTES);
    DocumentRoundTrip(document);
  }

  lemma EnvelopeShape(nonce: seq<Byte>, cipher: seq<Byte>)
    ensures Envelope(nonce, cipher).Obj?
  {
  }

  /** A document is sealed exactly when its JSON text has at most `maxPlain` bytes of UTF-8; the envelope carries the
      nonce and the ciphertext in base64url. */
  lemma SealExact(aead: Aead, nonce: seq<Byte>, document: Value, maxPlain: nat)
    ensures Seal(aead, nonce, document, maxPlain).Some? <==> |Bytes(Print(document))| <= maxPlain
    ensures Seal(aead, nonce, document, maxPlain).Some? ==>
      Parse(Seal(aead, nonce, document, maxPlain).value) == Some(Obj([
        Field(Lit("v"), Num(Dec(false, [1], 1))), Field(Lit("nonce"), Str(Encode(nonce))),
        Field(Lit("ciphertext"), Str(Encode(aead.seal(nonce, Bytes(Print(document))))))]))
  {
    hide Encode, Get, Bytes, Print, Parse, IsJson;
    EnvelopeFields(nonce, aead.seal(nonce, DocumentBytes(document)));
    RoundTrip(Envelope(nonce, aead.seal(nonce, DocumentBytes(document))));
  }

  /** The envelope of `nonce` and `cipher`. */
  predicate Envelops(envelope: Value, nonce: seq<Byte>, cipher: seq<Byte>) {
    && envelope.Obj? && Get(envelope.fields, Lit("v")) == Num(Dec(false, [1], 1))
    && Get(envelope.fields, Lit("nonce")) == Str(Encode(nonce)) && Get(envelope.fields, Lit("ciphertext")) == Str(Encode(cipher))
  }

  /** A text is opened exactly when it is JSON of an envelope with a nonce of 1 to 24 bytes and a ciphertext within
      the limit that opens to the JSON text of a document. */
  lemma UnsealExact(aead: Aead, stored: Text, maxCipher: nat, document: Value)
    ensures Unseal(aead, stored, maxCipher) == Some(document) <==>
      Parse(stored).Some? && exists nonce: seq<Byte>, cipher: seq<Byte> ::
        && Envelops(Parse(stored).value, nonce, cipher) && 1 <= |nonce| <= 24 && 1 <= |cipher| <= maxCipher
        && aead.open(nonce, cipher).Some? && ReadDocument(aead.open(nonce, cipher).value) == Some(document)
  {
    hide Encode, ToBytes, ReadDocument, Get, Parse;
    if Parse(stored).Some? {
      var envelope := Parse(stored).value;
      if Unseal(aead, stored, maxCipher) == Some(document) {
        var nonceText, cipherText := Get(envelope.fields, K_NONCE).s, Get(envelope.fields, K_CIPHERTEXT).s;
        EncodedToBytes(nonceText, NONCE_BYTES);
        EncodedToBytes(cipherText, maxCipher);
        assert Envelops(envelope, ToBytes(nonceText, NONCE_BYTES).value, ToBytes(cipherText, maxCipher).value);
      }
      forall nonce: seq<Byte>, cipher: seq<Byte> | Envelops(envelope, nonce, cipher) && 1 <= |nonce| <= 24 && 1 <= |cipher| <= maxCipher
          && aead.open(nonce, cipher).Some? && ReadDocument(aead.open(nonce, cipher).value) == Some(document)
        ensures Unseal(aead, stored, maxCipher) == Some(document)
      {
        ToBytesEncoded(nonce, NONCE_BYTES);
        ToBytesEncoded(cipher, maxCipher);
      }
    }
  }

  lemma EncodedToBytes(s: Text, maxBytes: nat)
    ensures ToBytes(s, maxBytes).Some? ==> Encode(ToBytes(s, maxBytes).value) == s && 1 <= |ToBytes(s, maxBytes).value| <= maxBytes
  {
    hide Encode, Decode;
    if Canonical(s) {
      AcceptedDecodes(s, "");
    }
  }

  /** A reader with any smaller limit would lose a document that fills the writer's. */
  lemma ReaderLimitIsTight(aead: Aead, nonce: seq<Byte>, document: Value, maxPlain: nat)
    requires Lawful(aead) && |nonce| == NONCE_BYTES && IsJson(document)
    requires |DocumentBytes(document)| == maxPlain
    ensures Seal(aead, nonce, document, maxPlain).Some?
    ensures maxPlain + TAG_BYTES > 0 ==>
      Unseal(aead, Seal(aead, nonce, document, maxPlain).value, maxPlain + TAG_BYTES - 1) == None
  {
    hide Encode, ToBytes, DocumentBytes, Get, IsJson, Print, Envelope;
    var plain := DocumentBytes(document);
    var cipher := aead.seal(nonce, plain);
    assert Sealed(aead, nonce, plain);
    EnvelopeFields(nonce, cipher);
    EnvelopeShape(nonce, cipher);
    RoundTrip(Envelope(nonce, cipher));
    ToBytesEncoded(cipher, maxPlain + TAG_BYTES - 1);
  }
}
