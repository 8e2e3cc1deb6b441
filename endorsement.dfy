/** Building endorsements (key requirements) and comparing them, as the
    library's endorsement tests pin the behaviour down. Whether a byte string is
    a well-formed Ed25519 public key is decided by the key-import library and is
    passed in as `isEd25519`. */
module Endorsements {
  import opened Wrappers
  import opened Entities

  /** `ArgumentOutOfRangeException`, the only failure the constructors raise. */
  datatype EndorsementError =
    | RangeError(paramName: string, message: string)

  const EmptyListMessage := "At least one endorsement in a list is required."
  const NoneRequiredMessage := "At least one key is required to sign a transaction."
  const TooManyRequiredMessage := "The required number of keys for a valid signature cannot exceed the number of public keys provided."
  const ListTypeMessage := "Only endorsements representing a single key are supported with this constructor, please use the list constructor instead."
  const UnrecognizedKeyMessage := "The public key was not provided in a recognizable Ed25519 format."

  /** The invariant the constructors establish: a single key is never of type
      `List`, and a list requires between one and all of its (valid) children. */
  predicate Valid(e: Endorsement) {
    match e
    case SingleKey(keyType, _) => keyType != List
    case KeyList(required, children) =>
      1 <= required <= |children| && forall c :: c in children ==> Valid(c)
  }

  /** `new Endorsement(type, publicKey)`. Only Ed25519 key bytes are checked: the
      tests build RSA3072 and ECDSA384 endorsements from Ed25519 key bytes. */
  function NewTypedKey(keyType: KeyType, publicKey: Bytes, isEd25519: Bytes -> bool): (r: Result<Endorsement, EndorsementError>)
    ensures r.Success? <==> keyType != List && (keyType == Ed25519 ==> isEd25519(publicKey))
    ensures keyType == List ==> r == Failure(RangeError("type", ListTypeMessage))
    ensures keyType == Ed25519 && !isEd25519(publicKey) ==> r == Failure(RangeError("publicKey", UnrecognizedKeyMessage))
    ensures r.Success? ==> Valid(r.value)
    ensures r.Success? ==> && r.value.Type() == keyType && r.value.PublicKey() == publicKey
                           && r.value.RequiredCount() == 0 && r.value.List() == []
  {
    if keyType == List then Failure(RangeError("type", ListTypeMessage))
    else if keyType == Ed25519 && !isEd25519(publicKey) then Failure(RangeError("publicKey", UnrecognizedKeyMessage))
    else Success(SingleKey(keyType, publicKey))
  }

  /** `new Endorsement(publicKey)`: a single key, Ed25519 by default. */
  function NewKey(publicKey: Bytes, isEd25519: Bytes -> bool): (r: Result<Endorsement, EndorsementError>)
    ensures r.Success? <==> isEd25519(publicKey)
    ensures r.Success? ==> && r.value.Type() == Ed25519 && r.value.PublicKey() == publicKey
                           && r.value.RequiredCount() == 0 && r.value.List() == []
  {
    NewTypedKey(Ed25519, publicKey, isEd25519)
  }

  /** `new Endorsement(requiredCount, endorsements)`: an n-of-m list. An empty list
      is refused before the count is looked at. */
  function NewThreshold(requiredCount: nat, children: seq<Endorsement>): (r: Result<Endorsement, EndorsementError>)
    ensures r.Success? <==> 1 <= requiredCount <= |children|
    ensures children == [] ==> r == Failure(RangeError("endorsements", EmptyListMessage))
    ensures children != [] && requiredCount == 0 ==> r == Failure(RangeError("requiredCount", NoneRequiredMessage))
    ensures children != [] && requiredCount > |children| ==> r == Failure(RangeError("requiredCount", TooManyRequiredMessage))
    ensures r.Success? ==> && r.value.Type() == List && r.value.RequiredCount() == requiredCount
                           && r.value.List() == children && r.value.PublicKey() == []
    ensures r.Success? && (forall c :: c in children ==> Valid(c)) ==> Valid(r.value)
  {
    if children == [] then Failure(RangeError("endorsements", EmptyListMessage))
    else if requiredCount < 1 then Failure(RangeError("requiredCount", NoneRequiredMessage))
    else if requiredCount > |children| then Failure(RangeError("requiredCount", TooManyRequiredMessage))
    else Success(KeyList(requiredCount, children))
  }

  /** `new Endorsement(endorsements)`: every child is required. */
  function NewList(children: seq<Endorsement>): (r: Result<Endorsement, EndorsementError>)
    ensures r.Success? <==> children != []
    ensures children == [] ==> r == Failure(RangeError("endorsements", EmptyListMessage))
    ensures r.Success? ==> && r.value.Type() == List && r.value.RequiredCount() == |children|
                           && r.value.List() == children && r.value.PublicKey() == []
  {
    NewThreshold(|children|, children)
  }

  /** Structural comparison through the public properties: type, key bytes,
      required count and the children, pairwise and in order. */
  predicate Equivalent(a: Endorsement, b: Endorsement) {
    && a.Type() == b.Type()
    && a.PublicKey() == b.PublicKey()
    && a.RequiredCount() == b.RequiredCount()
    && |a.List()| == |b.List()|
    && forall i :: 0 <= i < |a.List()| ==> Equivalent(a.List()[i], b.List()[i])
  }

  /** For endorsements the constructors can build, comparing the properties is the
      same as value equality, so `==`, `!=` and `Equals` agree. */
  lemma EquivalentIsEquality(a: Endorsement, b: Endorsement)
    requires Valid(a) && Valid(b)
    ensures Equivalent(a, b) <==> a == b
  {
    if Equivalent(a, b) {
      EquivalentOnlyIfEqual(a, b);
    }
    if a == b {
      EquivalentReflexive(a);
    }
  }

  lemma {:induction false} EquivalentOnlyIfEqual(a: Endorsement, b: Endorsement)
    requires Valid(a) && Valid(b) && Equivalent(a, b)
    ensures a == b
  {
    if a.KeyList? {
      forall i | 0 <= i < |a.children|
        ensures a.children[i] == b.children[i]
      {
        assert a.children[i] in a.children && b.children[i] in b.children;
        EquivalentOnlyIfEqual(a.children[i], b.children[i]);
      }
    }
  }

  lemma {:induction false} EquivalentReflexive(a: Endorsement)
    ensures Equivalent(a, a)
  {
    if a.KeyList? {
      forall i | 0 <= i < |a.children|
        ensures Equivalent(a.children[i], a.children[i])
      {
        assert a.children[i] in a.children;
        EquivalentReflexive(a.children[i]);
      }
    }
  }

  /** Two successful constructions give equal endorsements exactly when their
      inputs are equal; a single key never equals a list. */
  lemma ConstructionIsInjective(n1: nat, c1: seq<Endorsement>, n2: nat, c2: seq<Endorsement>,
                                t1: KeyType, k1: Bytes, t2: KeyType, k2: Bytes, isEd25519: Bytes -> bool)
    ensures NewThreshold(n1, c1).Success? && NewThreshold(n2, c2).Success? ==>
      (NewThreshold(n1, c1) == NewThreshold(n2, c2) <==> n1 == n2 && c1 == c2)
    ensures NewTypedKey(t1, k1, isEd25519).Success? && NewTypedKey(t2, k2, isEd25519).Success? ==>
      (NewTypedKey(t1, k1, isEd25519) == NewTypedKey(t2, k2, isEd25519) <==> t1 == t2 && k1 == k2)
    ensures NewTypedKey(t1, k1, isEd25519).Success? ==> NewTypedKey(t1, k1, isEd25519) != NewThreshold(n1, c1)
  {
  }

  /** A list that requires all of its children differs from one that requires
      fewer, as `(k1, k2)` differs from `(1, k1, k2)`. */
  lemma AllOfDiffersFromSomeOf(n: nat, children: seq<Endorsement>)
    requires 1 <= n < |children|
    ensures NewList(children).Success? && NewThreshold(n, children).Success?
    ensures NewList(children) != NewThreshold(n, children)
  {
  }
}
