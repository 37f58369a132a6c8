/**
 * The mint authorization engine as a specification: which mint requests a
 * trophy accepts, in which order the checks report their errors, and what an
 * accepted request emits. The `Hub` class implements these decisions step by
 * step; the lemmas here state what holds over whole runs of requests.
 */
module MintEngine {
  import opened HubTypes

  /**
   * Signature check offered by the host: does `signature` verify, under
   * `publicKey`, for the SHA-256 digest of `message`? Malformed encodings of
   * the key or the signature verify as false.
   */
  type Verifier = (string, string, string) -> bool

  /** An `AtHeight(h)` deadline has passed from block height h on. */
  predicate Expired(expiry: Option<Expiration>, height: nat) {
    expiry.Some? && height >= expiry.value.height
  }

  /** Minting n more instances keeps the trophy within its cap, if it has one. */
  predicate FitsSupply(t: TrophyInfo, n: nat) {
    t.maxSupply.None? || t.currentSupply + n <= t.maxSupply.value
  }

  /** The supply invariant: a capped trophy has never minted past its cap. */
  predicate WithinCap(t: TrophyInfo) {
    FitsSupply(t, 0)
  }

  /** Decision on a `MintByMinter` request for the stored trophy `t` under id `id`. */
  function AuthorizeByMinter(id: nat, t: TrophyInfo, caller: Addr, height: nat, owners: seq<Addr>)
    : Result<NftMsg, ContractError>
  {
    if !t.rule.ByMinter? then Err(RuleNotByMinter)
    else if caller != t.rule.minter then Err(CallerNotMinter)
    else if Expired(t.expiry, height) then Err(MintingTimeElapsed)
    else if !FitsSupply(t, |owners|) then Err(MaxSupplyExceeded)
    else Ok(Mint(id, t.currentSupply + 1, owners))
  }

  /**
   * Decision on a `MintBySignature` request. The signed message is the
   * caller's own address, so a signature made for someone else never
   * verifies; the signature is checked before the claim set.
   */
  function AuthorizeBySignature(
    id: nat, t: TrophyInfo, claimed: set<(nat, Addr)>,
    caller: Addr, height: nat, signature: string, verify: Verifier)
    : Result<NftMsg, ContractError>
  {
    if !t.rule.BySignature? then Err(RuleNotBySignature)
    else if Expired(t.expiry, height) then Err(MintingTimeElapsed)
    else if !FitsSupply(t, 1) then Err(MaxSupplyExceeded)
    else if !verify(t.rule.publicKey, caller, signature) then Err(SignatureVerificationFailed)
    else if (id, caller) in claimed then Err(AlreadyClaimed)
    else Ok(Mint(id, t.currentSupply + 1, [caller]))
  }

  /** The stored trophy once the instances of an accepted mint exist. */
  function Minted(t: TrophyInfo, m: NftMsg): TrophyInfo {
    t.(currentSupply := t.currentSupply + |m.owners|)
  }

  /** The tokens a mint instruction creates, as (serial, owner) pairs in order. */
  function Tokens(m: NftMsg): seq<(nat, Addr)> {
    seq(|m.owners|, k requires 0 <= k < |m.owners| => (m.startSerial + k, m.owners[k]))
  }

  /** The tokens of a sequence of mint instructions, in emission order. */
  function AllTokens(ms: seq<NftMsg>): seq<(nat, Addr)> {
    if ms == [] then [] else Tokens(ms[0]) + AllTokens(ms[1..])
  }

  /**
   * A `MintByMinter` request is accepted exactly when the stored rule names
   * the caller, the trophy is open and the owners fit the cap; otherwise the
   * first failing check, in the order rule, caller, expiry, supply, names the
   * error. An accepted request mints from the serial after the current supply.
   */
  lemma MinterAuthorization(id: nat, t: TrophyInfo, caller: Addr, height: nat, owners: seq<Addr>)
    ensures AuthorizeByMinter(id, t, caller, height, owners).Ok?
        <==> t.rule == ByMinter(caller) && !Expired(t.expiry, height) && FitsSupply(t, |owners|)
    ensures t.rule.BySignature? ==> AuthorizeByMinter(id, t, caller, height, owners) == Err(RuleNotByMinter)
    ensures t.rule.ByMinter? && t.rule.minter != caller
        ==> AuthorizeByMinter(id, t, caller, height, owners) == Err(CallerNotMinter)
    ensures t.rule == ByMinter(caller) && Expired(t.expiry, height)
        ==> AuthorizeByMinter(id, t, caller, height, owners) == Err(MintingTimeElapsed)
    ensures t.rule == ByMinter(caller) && !Expired(t.expiry, height) && !FitsSupply(t, |owners|)
        ==> AuthorizeByMinter(id, t, caller, height, owners) == Err(MaxSupplyExceeded)
    ensures AuthorizeByMinter(id, t, caller, height, owners).Ok?
        ==> AuthorizeByMinter(id, t, caller, height, owners).value == Mint(id, t.currentSupply + 1, owners)
  {
  }

  /**
   * A `MintBySignature` request is accepted exactly when the rule is
   * `BySignature`, the trophy is open, one more instance fits, the signature
   * verifies for the caller's address and the caller has not claimed before;
   * a signature that does not verify is reported as such whatever the claim
   * set holds. An accepted request mints one token to the caller.
   */
  lemma SignatureAuthorization(
    id: nat, t: TrophyInfo, claimed: set<(nat, Addr)>,
    caller: Addr, height: nat, signature: string, verify: Verifier)
    ensures AuthorizeBySignature(id, t, claimed, caller, height, signature, verify).Ok?
        <==> && t.rule.BySignature?
             && !Expired(t.expiry, height)
             && FitsSupply(t, 1)
             && verify(t.rule.publicKey, caller, signature)
             && (id, caller) !in claimed
    ensures t.rule.BySignature? && !Expired(t.expiry, height) && FitsSupply(t, 1)
             && !verify(t.rule.publicKey, caller, signature)
        ==> AuthorizeBySignature(id, t, claimed, caller, height, signature, verify) == Err(SignatureVerificationFailed)
    ensures AuthorizeBySignature(id, t, claimed, caller, height, signature, verify).Ok?
        ==> AuthorizeBySignature(id, t, claimed, caller, height, signature, verify).value
            == Mint(id, t.currentSupply + 1, [caller])
  {
  }

  /**
   * Expiry only ever closes minting: at or past the deadline no request is
   * accepted, and strictly before it the decision is the one the trophy would
   * get with no deadline at all.
   */
  lemma ExpiryGate(id: nat, t: TrophyInfo, claimed: set<(nat, Addr)>,
                   caller: Addr, height: nat, owners: seq<Addr>, signature: string, verify: Verifier)
    ensures Expired(t.expiry, height) ==>
      && AuthorizeByMinter(id, t, caller, height, owners).Err?
      && AuthorizeBySignature(id, t, claimed, caller, height, signature, verify).Err?
    ensures !Expired(t.expiry, height) ==>
      && AuthorizeByMinter(id, t, caller, height, owners)
         == AuthorizeByMinter(id, t.(expiry := None), caller, height, owners)
      && AuthorizeBySignature(id, t, claimed, caller, height, signature, verify)
         == AuthorizeBySignature(id, t.(expiry := None), claimed, caller, height, signature, verify)
  {
  }

  /**
   * The signed message binds the claimant only, not the trophy: a signature
   * that one `BySignature` trophy accepts from a caller is accepted by every
   * other trophy under the same key that is open, has room and has no claim
   * by that caller.
   */
  lemma SignatureNotTrophyBound(
    id1: nat, t1: TrophyInfo, id2: nat, t2: TrophyInfo, claimed: set<(nat, Addr)>,
    caller: Addr, height: nat, signature: string, verify: Verifier)
    requires AuthorizeBySignature(id1, t1, claimed, caller, height, signature, verify).Ok?
    requires t2.rule == t1.rule && !Expired(t2.expiry, height) && FitsSupply(t2, 1)
    requires (id2, caller) !in claimed
    ensures AuthorizeBySignature(id2, t2, claimed, caller, height, signature, verify)
            == Ok(Mint(id2, t2.currentSupply + 1, [caller]))
  {
  }

  /** An accepted mint never takes a trophy past its cap, and one that would is refused. */
  lemma MintKeepsCap(id: nat, t: TrophyInfo, caller: Addr, height: nat, owners: seq<Addr>)
    requires WithinCap(t)
    ensures AuthorizeByMinter(id, t, caller, height, owners).Ok?
        ==> WithinCap(Minted(t, AuthorizeByMinter(id, t, caller, height, owners).value))
    ensures t.rule == ByMinter(caller) && !Expired(t.expiry, height) && t.maxSupply.Some?
             && t.currentSupply + |owners| > t.maxSupply.value
        ==> AuthorizeByMinter(id, t, caller, height, owners) == Err(MaxSupplyExceeded)
  {
  }

  /** A `MintByMinter` request as issued: who sends it, at which height, for whom. */
  datatype MinterCall = MinterCall(caller: Addr, height: nat, owners: seq<Addr>)

  /** A `MintBySignature` request as issued. */
  datatype SignatureCall = SignatureCall(caller: Addr, height: nat, signature: string)

  /**
   * Runs `MintByMinter` requests one after another against trophy `id`;
   * gives the final record and the instructions of the accepted requests.
   * A refused request changes nothing.
   */
  function RunByMinter(id: nat, t: TrophyInfo, calls: seq<MinterCall>): (TrophyInfo, seq<NftMsg>)
    decreases |calls|
  {
    if calls == [] then (t, [])
    else
      match AuthorizeByMinter(id, t, calls[0].caller, calls[0].height, calls[0].owners)
      case Err(_) => RunByMinter(id, t, calls[1..])
      case Ok(m) =>
        var (final, ms) := RunByMinter(id, Minted(t, m), calls[1..]);
        (final, [m] + ms)
  }

  /**
   * Runs `MintBySignature` requests one after another against trophy `id`;
   * gives the final record, the final claim set and the accepted instructions.
   */
  function RunBySignature(
    id: nat, t: TrophyInfo, claimed: set<(nat, Addr)>, calls: seq<SignatureCall>, verify: Verifier)
    : (TrophyInfo, set<(nat, Addr)>, seq<NftMsg>)
    decreases |calls|
  {
    if calls == [] then (t, claimed, [])
    else
      var c := calls[0];
      match AuthorizeBySignature(id, t, claimed, c.caller, c.height, c.signature, verify)
      case Err(_) => RunBySignature(id, t, claimed, calls[1..], verify)
      case Ok(m) =>
        var (final, claimed', ms) :=
          RunBySignature(id, Minted(t, m), claimed + {(id, c.caller)}, calls[1..], verify);
        (final, claimed', [m] + ms)
  }

  lemma TokensOfPrefix(m: NftMsg, ms: seq<NftMsg>)
    ensures AllTokens([m] + ms) == Tokens(m) + AllTokens(ms)
  {
    assert ([m] + ms)[1..] == ms;
  }

  /**
   * Serials are gapless and follow call order: over any run of `MintByMinter`
   * requests the tokens emitted carry the serials currentSupply + 1,
   * currentSupply + 2, ... in order, the supply grows by exactly the number of
   * tokens emitted, and nothing else in the record changes.
   */
  lemma {:induction false} SerialsGapless(id: nat, t: TrophyInfo, calls: seq<MinterCall>)
    ensures var (final, ms) := RunByMinter(id, t, calls);
      && final == t.(currentSupply := t.currentSupply + |AllTokens(ms)|)
      && (forall k :: 0 <= k < |AllTokens(ms)| ==> AllTokens(ms)[k].0 == t.currentSupply + 1 + k)
      && (forall i :: 0 <= i < |ms| ==> ms[i].trophyId == id)
    decreases |calls|
  {
    if calls != [] {
      var c := calls[0];
      match AuthorizeByMinter(id, t, c.caller, c.height, c.owners)
      case Err(_) =>
        SerialsGapless(id, t, calls[1..]);
      case Ok(m) =>
        var t1 := Minted(t, m);
        SerialsGapless(id, t1, calls[1..]);
        var (final, rest) := RunByMinter(id, t1, calls[1..]);
        assert RunByMinter(id, t, calls) == (final, [m] + rest);
        TokensOfPrefix(m, rest);
        var all := AllTokens([m] + rest);
        assert |all| == |m.owners| + |AllTokens(rest)|;
        forall k | 0 <= k < |all|
          ensures all[k].0 == t.currentSupply + 1 + k
        {
          if k >= |m.owners| {
            assert all[k] == AllTokens(rest)[k - |m.owners|];
          }
        }
        forall i | 0 <= i < |[m] + rest|
          ensures ([m] + rest)[i].trophyId == id
        {
          if i > 0 {
            assert ([m] + rest)[i] == rest[i - 1];
          }
        }
    }
  }

  /** No run of `MintByMinter` requests takes a trophy past its cap. */
  lemma {:induction false} CapPreserved(id: nat, t: TrophyInfo, calls: seq<MinterCall>)
    requires WithinCap(t)
    ensures WithinCap(RunByMinter(id, t, calls).0)
    decreases |calls|
  {
    if calls != [] {
      var c := calls[0];
      match AuthorizeByMinter(id, t, c.caller, c.height, c.owners)
      case Err(_) =>
        CapPreserved(id, t, calls[1..]);
      case Ok(m) =>
        MintKeepsCap(id, t, c.caller, c.height, c.owners);
        CapPreserved(id, Minted(t, m), calls[1..]);
    }
  }

  /**
   * Under `BySignature` each claimant mints at most once: over any run, every
   * accepted instruction has a single owner who had not claimed before, the
   * owners of different instructions differ, and each ends up in the claim set.
   */
  lemma {:induction false} ClaimedAtMostOnce(
    id: nat, t: TrophyInfo, claimed: set<(nat, Addr)>, calls: seq<SignatureCall>, verify: Verifier)
    ensures var (_, claimed', ms) := RunBySignature(id, t, claimed, calls, verify);
      && claimed <= claimed'
      && (forall k :: 0 <= k < |ms| ==>
            |ms[k].owners| == 1 && (id, ms[k].owners[0]) !in claimed && (id, ms[k].owners[0]) in claimed')
      && (forall j, k :: 0 <= j < k < |ms| ==> ms[j].owners[0] != ms[k].owners[0])
    decreases |calls|
  {
    if calls != [] {
      var c := calls[0];
      match AuthorizeBySignature(id, t, claimed, c.caller, c.height, c.signature, verify)
      case Err(_) =>
        ClaimedAtMostOnce(id, t, claimed, calls[1..], verify);
      case Ok(m) =>
        var claimed1 := claimed + {(id, c.caller)};
        ClaimedAtMostOnce(id, Minted(t, m), claimed1, calls[1..], verify);
        var (final, claimed', rest) := RunBySignature(id, Minted(t, m), claimed1, calls[1..], verify);
        assert RunBySignature(id, t, claimed, calls, verify) == (final, claimed', [m] + rest);
        var ms := [m] + rest;
        forall k | 0 <= k < |ms|
          ensures |ms[k].owners| == 1 && (id, ms[k].owners[0]) !in claimed && (id, ms[k].owners[0]) in claimed'
        {
          if k > 0 {
            assert ms[k] == rest[k - 1];
          }
        }
        forall j, k | 0 <= j < k < |ms|
          ensures ms[j].owners[0] != ms[k].owners[0]
        {
          assert ms[k] == rest[k - 1];
          if j > 0 {
            assert ms[j] == rest[j - 1];
          } else {
            assert (id, rest[k - 1].owners[0]) !in claimed1;
          }
        }
    }
  }
}
