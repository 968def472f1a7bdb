/** The at-rest envelope of a credential: a printed AES-256-GCM triple behind a version prefix. */
module Credentials {
  import opened Wrappers
  import opened Strings
  import opened Base64Url

  type Key = seq<Byte>

  const PREFIX := "enc:v1:"

  /** The authenticated cipher (section 7 of NIST SP 800-38D) and the text encoding, as contracts. */
  datatype Suite = Suite(
    seal: (Key, seq<Byte>, seq<Byte>) -> (seq<Byte>, seq<Byte>),
    open: (Key, seq<Byte>, seq<Byte>, seq<Byte>) -> Option<seq<Byte>>,
    toBytes: string -> seq<Byte>,
    fromBytes: seq<Byte> -> string)
  {
    /** Opening inverts sealing; the ciphertext is as long as the plaintext, the tag has 16 bytes. */
    ghost predicate Correct() {
      && (forall k, iv, p :: |iv| == 12 ==>
            var (ct, tag) := seal(k, iv, p);
            |ct| == |p| && |tag| == 16 && open(k, iv, tag, ct) == Some(p))
      && (forall s :: fromBytes(toBytes(s)) == s && (toBytes(s) == [] <==> s == ""))
    }
  }

  datatype Failure = MissingKey | MalformedEnvelope | NotAuthentic

  function EncryptEnvelope(x: Suite, iv: seq<Byte>, plaintext: string, key: Key): string {
    var (ct, tag) := x.seal(key, iv, x.toBytes(plaintext));
    Encode(iv) + "." + Encode(tag) + "." + Encode(ct)
  }

  function EncryptCredential(x: Suite, iv: seq<Byte>, plaintext: string, key: Option<Key>): string {
    if key.None? then plaintext else PREFIX + EncryptEnvelope(x, iv, plaintext, key.value)
  }

  function DecryptCredential(x: Suite, stored: string, key: Option<Key>): Result<string, Failure> {
    if !(PREFIX <= stored) then Ok(stored)
    else if key.None? then Err(MissingKey)
    else
      var fields := Split(stored[|PREFIX|..], '.');
      if |fields| < 3 || fields[0] == "" || fields[1] == "" || fields[2] == "" then Err(MalformedEnvelope)
      else
        var clear := x.open(key.value, Decode(fields[0]), Decode(fields[1]), Decode(fields[2]));
        if clear.None? then Err(NotAuthentic) else Ok(x.fromBytes(clear.value))
  }

  lemma ThreeFields(a: string, b: string, c: string)
    requires '.' !in a && '.' !in b && '.' !in c
    ensures Split(a + "." + b + "." + c, '.') == [a, b, c]
  {
    SplitAtSeparator(a + "." + b, '.', c);
    SplitAtSeparator(a, '.', b);
    SplitWithoutSeparator(a, '.');
    SplitWithoutSeparator(b, '.');
    SplitWithoutSeparator(c, '.');
  }

  /** Under a key, decryption inverts encryption on every plaintext but the empty one, which it refuses. */
  lemma DecryptInvertsEncrypt(x: Suite, iv: seq<Byte>, plaintext: string, key: Key)
    requires x.Correct() && |iv| == 12
    ensures DecryptCredential(x, EncryptCredential(x, iv, plaintext, Some(key)), Some(key))
         == if plaintext == "" then Err(MalformedEnvelope) else Ok(plaintext)
  {
    var p := x.toBytes(plaintext);
    var (ct, tag) := x.seal(key, iv, p);
    var stored := EncryptCredential(x, iv, plaintext, Some(key));
    assert stored[|PREFIX|..] == Encode(iv) + "." + Encode(tag) + "." + Encode(ct);
    NoDot(iv);
    NoDot(tag);
    NoDot(ct);
    ThreeFields(Encode(iv), Encode(tag), Encode(ct));
    RoundTrip(iv);
    RoundTrip(tag);
    RoundTrip(ct);
  }

  /** Without a key the text is stored as it is, and comes back unless it looks like an envelope. */
  lemma LegacyPlaintext(x: Suite, iv: seq<Byte>, plaintext: string, key: Option<Key>)
    ensures !(PREFIX <= plaintext) ==> DecryptCredential(x, EncryptCredential(x, iv, plaintext, None), key) == Ok(plaintext)
    ensures DecryptCredential(x, EncryptCredential(x, iv, plaintext, None), None)
         == if PREFIX <= plaintext then Err(MissingKey) else Ok(plaintext)
  {
  }

  /** How an envelope looks: the prefix with its version, and three printed fields between dots. */
  lemma EnvelopeLooksSo(x: Suite, iv: seq<Byte>, plaintext: string, key: Key)
    ensures var (ct, tag) := x.seal(key, iv, x.toBytes(plaintext));
            EncryptCredential(x, iv, plaintext, Some(key)) == "enc:v1:" + (Encode(iv) + "." + Encode(tag) + "." + Encode(ct))
  {
  }

  /** What is read of stored text: anything without the prefix as it is; else three fields that open under the key. */
  lemma StoredReadsSo(x: Suite, stored: string, key: Option<Key>, body: string)
    ensures !("enc:v1:" <= stored) ==> DecryptCredential(x, stored, key) == Ok(stored)
    ensures stored == "enc:v1:" + body ==>
              DecryptCredential(x, stored, key) ==
              if key.None? then Err(MissingKey)
              else
                var fields := Split(body, '.');
                if |fields| < 3 || fields[0] == "" || fields[1] == "" || fields[2] == "" then Err(MalformedEnvelope)
                else
                  var clear := x.open(key.value, Decode(fields[0]), Decode(fields[1]), Decode(fields[2]));
                  if clear.None? then Err(NotAuthentic) else Ok(x.fromBytes(clear.value))
  {
    assert stored == "enc:v1:" + body ==> stored[7..] == body && "enc:v1:" <= stored;
  }

  /** An envelope cannot be read without the key. */
  lemma EnvelopeNeedsKey(x: Suite, iv: seq<Byte>, plaintext: string, key: Key)
    ensures DecryptCredential(x, EncryptCredential(x, iv, plaintext, Some(key)), None) == Err(MissingKey)
  {
  }

  /**
   * What is read back with the key it was written with, or with none: a secret written under a key needs that key
   * and must not be empty; one written in the clear must not look like an envelope.
   */
  lemma ReadsBackIff(x: Suite, iv: seq<Byte>, plaintext: string, key: Option<Key>, later: Option<Key>)
    requires x.Correct() && |iv| == 12
    requires later == key || later == None
    ensures DecryptCredential(x, EncryptCredential(x, iv, plaintext, key), later) == Ok(plaintext) <==>
            if key.Some? then later == key && plaintext != "" else !(PREFIX <= plaintext)
  {
    match key
    case Some(k) =>
      if later == key {
        DecryptInvertsEncrypt(x, iv, plaintext, k);
      } else {
        EnvelopeNeedsKey(x, iv, plaintext, k);
      }
    case None => LegacyPlaintext(x, iv, plaintext, None);
  }
}
