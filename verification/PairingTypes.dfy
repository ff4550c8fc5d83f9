/** Values shared by the phone and the desktop: identifiers, sealed vaults and results. */
module PairingTypes {

  datatype Option<+T> = None | Some(value: T)

  /** Why an operation stopped: the storage layer failed, the operation itself refused, or no answer came. */
  datatype Error = StorageFailure | Refused | Unreachable

  datatype Result<+T> = Ok(value: T) | Err(error: Error) {
    predicate IsFailure() { Err? }

    function PropagateFailure<U>(): Result<U>
      requires Err?
    {
      Err(error)
    }

    function Extract(): T
      requires Ok?
    {
      value
    }
  }

  /** Result of an operation that returns nothing. */
  type Status = Result<()>

  const DONE: Status := Ok(())

  /** A pairing id (a version 4 UUID in the program). */
  type Gen = nat

  /** The phone-held half of the vault key. */
  type Share = nat

  type Salt = nat

  type Password = string

  /** An iroh node id. */
  type Node = nat

  /** The serialized entries of a vault. */
  type Plaintext = seq<string>

  /** Argon2 and HKDF are free constructors: equal results come from equal inputs only. */
  datatype LocalSecret = LocalSecret(password: Password, salt: Salt)

  datatype VaultKey = VaultKey(local: LocalSecret, share: Share)

  /** vault.enc: the salt travels in clear beside the sealed plaintext. */
  datatype Blob = Blob(salt: Salt, key: VaultKey, plaintext: Plaintext)

  /** Only the sealing key opens a blob. */
  function Open(blob: Blob, key: VaultKey): Option<Plaintext> {
    if blob.key == key then Some(blob.plaintext) else None
  }

  /** What a user gets from a vault file with a password and a phone share. */
  function Unseal(blob: Blob, password: Password, share: Share): Option<Plaintext> {
    Open(blob, VaultKey(LocalSecret(password, blob.salt), share))
  }
}
