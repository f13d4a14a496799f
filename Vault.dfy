/**
 * `PasswordManager`: the credential wrapper around Windows DPAPI.
 * The encodings and the protection calls are foreign code; they are the
 * fields of a `Crypto` value, and `Lawful` states the round trips the
 * wrapper relies on. A failing call (an exception in the source) is `None`.
 */
module Vault {
  import opened Wrappers

  /** The fixed secondary entropy passed to every `Protect`/`Unprotect` call. */
  const Entropy: seq<byte> := [0x49, 0x76, 0x61, 0x6e, 0x20, 0x4d, 0x65, 0x64, 0x76, 0x65, 0x64, 0x65, 0x76]

  /** The characters `Convert.ToBase64String` writes: letters, digits, `+`, `/` and the `=` padding. */
  predicate IsBase64Char(ch: char)
  {
    ('A' <= ch <= 'Z') || ('a' <= ch <= 'z') || ('0' <= ch <= '9') || ch == '+' || ch == '/' || ch == '='
  }

  /**
   * UTF-8 encoding and decoding, Base64 text conversion, and the
   * current-user DPAPI `Protect`/`Unprotect` calls (data, entropy).
   */
  datatype Crypto = Crypto(
    utf8Encode: string -> seq<byte>,
    utf8Decode: seq<byte> -> string,
    toBase64: seq<byte> -> string,
    fromBase64: string -> Option<seq<byte>>,
    protect: (seq<byte>, seq<byte>) -> Option<seq<byte>>,
    unprotect: (seq<byte>, seq<byte>) -> Option<seq<byte>>)

  /**
   * The laws of the foreign calls: UTF-8 and Base64 round-trip, Base64 text
   * stays inside its alphabet and is empty only for no bytes, and whatever
   * `Protect` produced under some entropy `Unprotect` restores under the
   * same entropy; a protected blob is never empty.
   */
  ghost predicate Lawful(c: Crypto)
  {
    && (forall s :: c.utf8Decode(c.utf8Encode(s)) == s)
    && (forall b :: c.fromBase64(c.toBase64(b)) == Some(b))
    && (forall b :: b != [] ==> c.toBase64(b) != "")
    && (forall b, k :: 0 <= k < |c.toBase64(b)| ==> IsBase64Char(c.toBase64(b)[k]))
    && (forall b, e, p :: c.protect(b, e) == Some(p) ==> p != [] && c.unprotect(p, e) == Some(b))
  }

  /** `EncryptString`: empty text passes through; a failing call stores the plaintext. */
  function EncryptString(c: Crypto, input: string): string
  {
    if input == "" then input
    else
      match c.protect(c.utf8Encode(input), Entropy)
      case None => input
      case Some(blob) => c.toBase64(blob)
  }

  /** `DecryptString`: empty text passes through; any failing call gives "". */
  function DecryptString(c: Crypto, data: string): string
  {
    if data == "" then data
    else
      match c.fromBase64(data)
      case None => ""
      case Some(blob) =>
        match c.unprotect(blob, Entropy)
        case None => ""
        case Some(plain) => c.utf8Decode(plain)
  }

  /** Encryption of `input` reached the Base64 step (the `Protect` call succeeded). */
  predicate Protected(c: Crypto, input: string)
  {
    input != "" && c.protect(c.utf8Encode(input), Entropy).Some?
  }

  /** Decrypting what encryption produced gives the input back, empty input included. */
  lemma DecryptAfterEncrypt(c: Crypto, input: string)
    requires Lawful(c)
    requires input == "" || Protected(c, input)
    ensures DecryptString(c, EncryptString(c, input)) == input
  {
    if input != "" {
      var blob := c.protect(c.utf8Encode(input), Entropy).value;
      assert c.unprotect(blob, Entropy) == Some(c.utf8Encode(input));
      assert c.fromBase64(c.toBase64(blob)) == Some(blob);
    }
  }

  /**
   * Stored text is empty exactly when the input is; protected text is pure
   * Base64 (so it holds no line break), and when protection fails the
   * plaintext itself is what gets stored.
   */
  lemma EncryptShape(c: Crypto, input: string)
    requires Lawful(c)
    ensures EncryptString(c, input) == "" <==> input == ""
    ensures Protected(c, input) ==> forall k :: 0 <= k < |EncryptString(c, input)| ==> IsBase64Char(EncryptString(c, input)[k])
    ensures !Protected(c, input) ==> EncryptString(c, input) == input
  {
    if Protected(c, input) {
      var blob := c.protect(c.utf8Encode(input), Entropy).value;
      assert blob != [];
    }
  }

  /** Text that is not Base64, or that `Unprotect` rejects, decrypts to "". */
  lemma DecryptFailure(c: Crypto, data: string)
    requires data != ""
    requires c.fromBase64(data).None? || c.unprotect(c.fromBase64(data).value, Entropy).None?
    ensures DecryptString(c, data) == ""
  {
  }
}
