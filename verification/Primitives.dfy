/** Values shared by every part of the node's model. */
module Primitives {

  /** A participant's account address. */
  type Address = nat

  /** A 32-byte payment secret. */
  type Secret = nat

  /** SHA-256 images as free terms: ShaSecret is injective, and a peer may also name a hash nobody has the secret of. */
  datatype SecretHash = ShaOf(secret: Secret) | Unopened(id: nat)

  function ShaSecret(s: Secret): SecretHash { ShaOf(s) }

  datatype Option<+T> = None | Some(value: T)

  /** Number of blocks after which an event counts as safe from forks (params.ForkConfirmNumber). */
  const FORK_CONFIRM := 17

  /** Modulus of the nonce, an unsigned 64-bit counter. */
  const UINT64 := 0x1_0000_0000_0000_0000

  type Nonce = n: int | 0 <= n < UINT64

  /** No element twice. */
  ghost predicate Distinct<T(!new)>(s: seq<T>) {
    forall i, j :: 0 <= i < j < |s| ==> s[i] != s[j]
  }
}
