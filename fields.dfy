/** The pattern every record service repeats for a sensitive text field:
    encrypt it on the way in when it is truthy, decrypt it on the way out
    when the stored ciphertext is truthy. */
module Fields {
  import opened Wrappers
  import opened Storage
  import opened Encryption
  import opened Identity

  /** Encrypts a text field when it is truthy. */
  function SealText(cipher: EncryptionService, plain: Option<string>): (r: Result<Option<string>, ServiceError>)
    reads cipher
    ensures !Truthy(plain) ==> r == Success(None)
    ensures Truthy(plain) ==> (r.Success? <==> cipher.HasKey())
    ensures r.Failure? ==> r.error == CipherFailed(KeyNotInitialized)
    ensures r.Success? && Truthy(plain) ==>
      r.value.Some? && r.value.value != "" && Open(cipher.encryptionKey.value, r.value.value) == plain.value
  {
    if !Truthy(plain) then Success(None)
    else match cipher.Encrypt(plain.value)
      case Success(c) => Success(Some(c))
      case Failure(e) => Failure(CipherFailed(e))
  }

  /** Decrypts a stored text field when it is truthy. */
  function RevealText(cipher: EncryptionService, stored: Option<string>): (r: Result<Option<string>, ServiceError>)
    reads cipher
    ensures !Truthy(stored) ==> r == Success(None)
    ensures Truthy(stored) ==> (r.Success? <==> cipher.HasKey())
    ensures r.Success? && Truthy(stored) ==> r.value == Some(Open(cipher.encryptionKey.value, stored.value))
  {
    if !Truthy(stored) then Success(None)
    else match cipher.Decrypt(stored.value)
      case Success(plain) => Success(Some(plain))
      case Failure(e) => Failure(CipherFailed(e))
  }

  /** A text field written and read back is the field itself when it
      was truthy, and absent otherwise. */
  lemma RevealSealText(cipher: EncryptionService, plain: Option<string>)
    requires SealText(cipher, plain).Success?
    ensures RevealText(cipher, SealText(cipher, plain).value) ==
      Success(if Truthy(plain) then plain else None)
  {
  }
}
