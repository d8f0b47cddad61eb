/** The action bundle a commitment froze, followed along the chain. */
module Bundles {
  import opened Bytes
  import opened Commitments
  import opened Erc20
  import opened Governor
  import opened Grounds
  import opened Jobs
  import opened Protocol
  import opened Abi

  ghost predicate SameHashAt(cfg: Config, chain: Chain, c: Commitment, b: nat, b': nat) {
    var x, y := AuthorizationAt(chain, c, b), AuthorizationAt(chain, c, b');
    x.Some? && y.Some? && cfg.authorizationHash(x.value) == cfg.authorizationHash(y.value)
  }

  /** The hash tells apart the bundles the chain has ever shown for this proposal, letter case of targets aside. */
  ghost predicate Separates(cfg: Config, chain: Chain, c: Commitment) {
    forall b, b' :: SameHashAt(cfg, chain, c, b, b') ==>
                      SameActions(AuthorizationAt(chain, c, b).value.actions,
                                  AuthorizationAt(chain, c, b').value.actions)
  }

  /** While the hash has not changed, neither has the first selected action or the transfer it makes. */
  lemma SameTransferThroughout(cfg: Config, chain: Chain, c: Commitment, b: nat, b': nat)
    requires Separates(cfg, chain, c) && StillFrozen(cfg, chain, c, b) && StillFrozen(cfg, chain, c, b')
    ensures ActionAt(chain, c, b).Some? ==>
        ActionAt(chain, c, b').Some? && SameAction(ActionAt(chain, c, b).value, ActionAt(chain, c, b').value)
    ensures ActionAt(chain, c, b).Some? ==> TransferAt(chain, c, b) == TransferAt(chain, c, b')
  {
    hide TryDecodeTransfer, SameAction;
    var x, y := AuthorizationAt(chain, c, b).value, AuthorizationAt(chain, c, b').value;
    assert SameHashAt(cfg, chain, c, b, b');
    if ActionAt(chain, c, b).Some? { SameDecode(ActionAt(chain, c, b).value, ActionAt(chain, c, b').value); }
  }

  lemma SameDecode(a: Action, b: Action)
    requires SameAction(a, b)
    ensures TryDecodeTransfer(a.signature, a.calldata) == TryDecodeTransfer(b.signature, b.calldata)
  {
  }

  /** The encodings of every bundle the chain has shown for this proposal. */
  ghost function BundleEncodings(chain: Chain, c: Commitment): set<seq<Byte>> {
    set b | 0 <= b < |chain.blocks| && AuthorizationAt(chain, c, b).Some? &&
            EncodeAuthorization(AuthorizationAt(chain, c, b).value).Some? ::
      EncodeAuthorization(AuthorizationAt(chain, c, b).value).value
  }

  /** With Keccak-256 over the canonical encoding, telling bundles apart is no more than the absence of a collision. */
  lemma KeccakSeparates(cfg: Config, keccak: Keccak, chain: Chain, c: Commitment)
    requires forall b :: AuthorizationAt(chain, c, b).Some? ==>
               EncodeAuthorization(AuthorizationAt(chain, c, b).value).Some? &&
               cfg.authorizationHash(AuthorizationAt(chain, c, b).value) ==
                 keccak(EncodeAuthorization(AuthorizationAt(chain, c, b).value).value)
    requires NoCollision(keccak, BundleEncodings(chain, c)) && Moderate(BundleEncodings(chain, c))
    ensures Separates(cfg, chain, c)
  {
    hide EncodeAuthorization, EncodableAuthorization, SameActions, ViewAt;
    forall b, b' | SameHashAt(cfg, chain, c, b, b')
      ensures SameActions(AuthorizationAt(chain, c, b).value.actions, AuthorizationAt(chain, c, b').value.actions)
    {
      BundlesDetermined(keccak, chain, c, b, b');
    }
  }

  lemma BundlesDetermined(keccak: Keccak, chain: Chain, c: Commitment, b: nat, b': nat)
    requires AuthorizationAt(chain, c, b).Some? && AuthorizationAt(chain, c, b').Some?
    requires EncodeAuthorization(AuthorizationAt(chain, c, b).value).Some? &&
             EncodeAuthorization(AuthorizationAt(chain, c, b').value).Some?
    requires NoCollision(keccak, BundleEncodings(chain, c)) && Moderate(BundleEncodings(chain, c))
    requires keccak(EncodeAuthorization(AuthorizationAt(chain, c, b).value).value) ==
               keccak(EncodeAuthorization(AuthorizationAt(chain, c, b').value).value)
    ensures SameActions(AuthorizationAt(chain, c, b).value.actions, AuthorizationAt(chain, c, b').value.actions)
  {
    hide AuthorizationValue, Encode, SameActions;
    var x, y := AuthorizationAt(chain, c, b).value, AuthorizationAt(chain, c, b').value;
    assert b < |chain.blocks| && b' < |chain.blocks|;
    assert EncodeAuthorization(x).value in BundleEncodings(chain, c) &&
           EncodeAuthorization(y).value in BundleEncodings(chain, c);
    AuthorizationHashDetermines(keccak, x, y);
  }
}
