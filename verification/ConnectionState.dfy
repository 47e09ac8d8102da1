/** The pending authorization a GitHub installation connection carries from one callback to the next. */
module ConnectionState {
  import opened Wrappers

  /** The zero time; every time is counted from it. */
  const UNSET := 0

  datatype Kind = Bootstrap | Setup | OAuth | OAuthExchanged

  /** Digests and ciphertexts stand as the names of what they were made from; BLANK is an absent one. */
  datatype State = State(
    kind: Kind,
    identity: Name,
    installation: int,
    continuation: Name,
    challenge: Name,
    challengeExpiresAt: int,
    authorizedAt: int,
    ciphertext: Name,
    issuedAt: int,
    expiresAt: int)
}
