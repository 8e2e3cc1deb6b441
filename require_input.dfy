/** The argument guards the public operations run before anything else
    (RequireInputParameter.cs). Each returns its argument unchanged or fails with
    the exception the source throws. Key import belongs to a cryptography
    library and is passed in as a function from key bytes to the imported key
    or the import's error message. */
module RequireInput {
  import opened Wrappers
  import E = Entities
  import Text

  /** The .NET argument exceptions. `ArgumentException` takes its message first,
      the other two take the parameter name first; the field order follows them. */
  datatype ArgumentError =
    | ArgumentNull(paramName: string, message: string)
    | ArgumentOutOfRange(paramName: string, message: string)
    | Argument(message: string, paramName: string)

  /** What every null guard promises: a present argument comes back unchanged, an
      absent one fails with `ArgumentNullException` naming `paramName`. */
  ghost predicate NullGuarded<T>(x: Option<T>, r: Result<T, ArgumentError>, paramName: string) {
    && (x.Some? ==> r == Success(x.value))
    && (x.None? ==> r.Failure? && r.error.ArgumentNull? && r.error.paramName == paramName)
  }

  function NotNull<T>(x: Option<T>, paramName: string, message: string): Result<T, ArgumentError> {
    if x.None? then Failure(ArgumentNull(paramName, message)) else Success(x.value)
  }

  function Address(address: Option<E.Address>): (r: Result<E.Address, ArgumentError>)
    ensures NullGuarded(address, r, "address")
  {
    NotNull(address, "address", "Account Address is is missing. Please check that it is not null.")
  }

  function AddressToDelete(addressToDelete: Option<E.Address>): (r: Result<E.Address, ArgumentError>)
    ensures NullGuarded(addressToDelete, r, "addressToDelete")
  {
    NotNull(addressToDelete, "addressToDelete", "Account to Delete is missing. Please check that it is not null.")
  }

  function File(file: Option<E.Address>): (r: Result<E.Address, ArgumentError>)
    ensures NullGuarded(file, r, "file")
  {
    NotNull(file, "file", "File is missing. Please check that it is not null.")
  }

  function FileToDelete(fileToDelete: Option<E.Address>): (r: Result<E.Address, ArgumentError>)
    ensures NullGuarded(fileToDelete, r, "fileToDelete")
  {
    NotNull(fileToDelete, "fileToDelete", "File to Delete is missing. Please check that it is not null.")
  }

  function TransferToAddress(transferToAddress: Option<E.Address>): (r: Result<E.Address, ArgumentError>)
    ensures NullGuarded(transferToAddress, r, "transferToAddress")
  {
    NotNull(transferToAddress, "transferToAddress", "Transfer address is is missing. Please check that it is not null.")
  }

  function FromAccount(fromAccount: Option<E.Account>): (r: Result<E.Account, ArgumentError>)
    ensures NullGuarded(fromAccount, r, "fromAccount")
  {
    NotNull(fromAccount, "fromAccount", "Account to transfer from is is missing. Please check that it is not null.")
  }

  function ToAddress(toAddress: Option<E.Address>): (r: Result<E.Address, ArgumentError>)
    ensures NullGuarded(toAddress, r, "toAddress")
  {
    NotNull(toAddress, "toAddress", "Account to transfer to is is missing. Please check that it is not null.")
  }

  /** Zero is refused along with the negatives. */
  function Amount(amount: int): (r: Result<int, ArgumentError>)
    ensures r.Success? <==> amount >= 1
    ensures r.Success? ==> r.value == amount
    ensures r.Failure? ==> r.error == ArgumentOutOfRange("amount", "The amount to transfer must be non-negative.")
  {
    if amount < 1 then Failure(ArgumentOutOfRange("amount", "The amount to transfer must be non-negative.")) else Success(amount)
  }

  function AcountNumber(accountNum: int): (r: Result<int, ArgumentError>)
    ensures r.Success? <==> accountNum >= 0
    ensures r.Success? ==> r.value == accountNum
    ensures r.Failure? ==> r.error == ArgumentOutOfRange("accountNum", "Account Number cannot be negative.")
  {
    if accountNum < 0 then Failure(ArgumentOutOfRange("accountNum", "Account Number cannot be negative.")) else Success(accountNum)
  }

  function ShardNumber(shardNum: int): (r: Result<int, ArgumentError>)
    ensures r.Success? <==> shardNum >= 0
    ensures r.Success? ==> r.value == shardNum
    ensures r.Failure? ==> r.error == ArgumentOutOfRange("shardNum", "Shard Number cannot be negative.")
  {
    if shardNum < 0 then Failure(ArgumentOutOfRange("shardNum", "Shard Number cannot be negative.")) else Success(shardNum)
  }

  function RealmNumber(realmNum: int): (r: Result<int, ArgumentError>)
    ensures r.Success? <==> realmNum >= 0
    ensures r.Success? ==> r.value == realmNum
    ensures r.Failure? ==> r.error == ArgumentOutOfRange("realmNum", "Realm Number cannot be negative.")
  {
    if realmNum < 0 then Failure(ArgumentOutOfRange("realmNum", "Realm Number cannot be negative.")) else Success(realmNum)
  }

  /** A URL must hold at least one character that is not white space. */
  function Url(url: Option<string>): (r: Result<string, ArgumentError>)
    ensures r.Success? <==> url.Some? && exists i :: 0 <= i < |url.value| && !Text.IsWhiteSpace(url.value[i])
    ensures r.Success? ==> r.value == url.value
    ensures r.Failure? ==> r.error == ArgumentOutOfRange("url", "URL is required.")
  {
    if Text.IsNullOrWhiteSpace(url) then Failure(ArgumentOutOfRange("url", "URL is required.")) else Success(url.value)
  }

  /** `requiredCount` must be at least one and at most `maxCount`; the two ways of
      failing carry different messages. */
  function RequiredCount(requiredCount: int, maxCount: int): (r: Result<int, ArgumentError>)
    ensures r.Success? <==> 1 <= requiredCount <= maxCount
    ensures r.Success? ==> r.value == requiredCount
    ensures requiredCount < 1 ==>
      r == Failure(ArgumentOutOfRange("requiredCount", "At least one key is required to sign a transaction."))
    ensures 1 <= requiredCount && maxCount < requiredCount ==>
      r == Failure(ArgumentOutOfRange("requiredCount", "The required number of keys for a valid signature cannot exceed the number of public keys provided."))
  {
    if requiredCount < 1 then
      Failure(ArgumentOutOfRange("requiredCount", "At least one key is required to sign a transaction."))
    else if requiredCount > maxCount then
      Failure(ArgumentOutOfRange("requiredCount", "The required number of keys for a valid signature cannot exceed the number of public keys provided."))
    else Success(requiredCount)
  }

  /** `i` is the first key whose import fails. */
  ghost predicate FirstImportFailure<K>(keys: seq<E.Bytes>, importKey: E.Bytes -> Result<K, string>, i: int) {
    && 0 <= i < |keys|
    && importKey(keys[i]).Failure?
    && forall j :: 0 <= j < i ==> importKey(keys[j]).Success?
  }

  /** Imports every key into a fresh array, in order; the first import that fails
      ends the loop with `ArgumentOutOfRangeException` carrying its message. */
  method ImportKeys<K(0)>(keys: seq<E.Bytes>, importKey: E.Bytes -> Result<K, string>, paramName: string, emptyMessage: string)
    returns (r: Result<seq<K>, ArgumentError>)
    ensures keys == [] ==> r == Failure(ArgumentOutOfRange(paramName, emptyMessage))
    ensures keys != [] ==> (r.Success? <==> forall i :: 0 <= i < |keys| ==> importKey(keys[i]).Success?)
    ensures r.Success? ==> |r.value| == |keys| && forall i :: 0 <= i < |keys| ==> importKey(keys[i]) == Success(r.value[i])
    ensures keys != [] && r.Failure? ==>
      exists i :: FirstImportFailure(keys, importKey, i) && r.error == ArgumentOutOfRange(paramName, importKey(keys[i]).error)
  {
    if |keys| == 0 {
      return Failure(ArgumentOutOfRange(paramName, emptyMessage));
    }
    var result := new K[|keys|];
    for i := 0 to |keys|
      invariant forall j :: 0 <= j < i ==> importKey(keys[j]) == Success(result[j])
    {
      var imported := importKey(keys[i]);
      if imported.Failure? {
        assert FirstImportFailure(keys, importKey, i);
        return Failure(ArgumentOutOfRange(paramName, imported.error));
      }
      result[i] := imported.value;
    }
    r := Success(result[..]);
  }

  method PublicKeys<K(0)>(publicKeys: seq<E.Bytes>, importPublic: E.Bytes -> Result<K, string>)
    returns (r: Result<seq<K>, ArgumentError>)
    ensures publicKeys == [] ==> r == Failure(ArgumentOutOfRange("publicKeys", "At least one public key is required."))
    ensures publicKeys != [] ==> (r.Success? <==> forall i :: 0 <= i < |publicKeys| ==> importPublic(publicKeys[i]).Success?)
    ensures r.Success? ==>
      |r.value| == |publicKeys| && forall i :: 0 <= i < |publicKeys| ==> importPublic(publicKeys[i]) == Success(r.value[i])
    ensures publicKeys != [] && r.Failure? ==>
      exists i :: FirstImportFailure(publicKeys, importPublic, i) && r.error == ArgumentOutOfRange("publicKeys", importPublic(publicKeys[i]).error)
  {
    r := ImportKeys(publicKeys, importPublic, "publicKeys", "At least one public key is required.");
  }

  method PrivateKeys<K(0)>(privateKeys: seq<E.Bytes>, importPrivate: E.Bytes -> Result<K, string>)
    returns (r: Result<seq<K>, ArgumentError>)
    ensures privateKeys == [] ==> r == Failure(ArgumentOutOfRange("privateKeys", "At least one private key is required."))
    ensures privateKeys != [] ==> (r.Success? <==> forall i :: 0 <= i < |privateKeys| ==> importPrivate(privateKeys[i]).Success?)
    ensures r.Success? ==>
      |r.value| == |privateKeys| && forall i :: 0 <= i < |privateKeys| ==> importPrivate(privateKeys[i]) == Success(r.value[i])
    ensures privateKeys != [] && r.Failure? ==>
      exists i :: FirstImportFailure(privateKeys, importPrivate, i) && r.error == ArgumentOutOfRange("privateKeys", importPrivate(privateKeys[i]).error)
  {
    r := ImportKeys(privateKeys, importPrivate, "privateKeys", "At least one private key is required.");
  }

  /** Account creation needs a public key that imports as Ed25519; the imported
      key itself is discarded. */
  function CreateAccountParameters<K>(createParameters: Option<E.CreateAccountParams>, importPublic: E.Bytes -> Result<K, string>)
    : (r: Result<E.CreateAccountParams, ArgumentError>)
    ensures r.Success? <==> && createParameters.Some? && createParameters.value.publicKey != []
                            && importPublic(createParameters.value.publicKey).Success?
    ensures r.Success? ==> r.value == createParameters.value
    ensures createParameters.None? ==> r.Failure? && r.error.ArgumentNull? && r.error.paramName == "createParameters"
    ensures createParameters.Some? && createParameters.value.publicKey == [] ==>
      r == Failure(ArgumentOutOfRange("PublicKey", "The public key is required."))
    ensures createParameters.Some? && createParameters.value.publicKey != [] && importPublic(createParameters.value.publicKey).Failure? ==>
      r == Failure(ArgumentOutOfRange("PublicKey", importPublic(createParameters.value.publicKey).error))
  {
    if createParameters.None? then
      Failure(ArgumentNull("createParameters", "The create parameters are is missing. Please check that the argument is not null."))
    else if createParameters.value.publicKey == [] then
      Failure(ArgumentOutOfRange("PublicKey", "The public key is required."))
    else
      var imported := importPublic(createParameters.value.publicKey);
      if imported.Failure? then Failure(ArgumentOutOfRange("PublicKey", imported.error))
      else Success(createParameters.value)
  }

  function CreateFileParameters(createParameters: Option<E.CreateFileParams>): (r: Result<E.CreateFileParams, ArgumentError>)
    ensures r.Success? <==> createParameters.Some? && createParameters.value.endorsements.Some?
    ensures r.Success? ==> r.value == createParameters.value
    ensures createParameters.None? ==> r.Failure? && r.error.ArgumentNull? && r.error.paramName == "createParameters"
    ensures createParameters.Some? && createParameters.value.endorsements.None? ==>
      r == Failure(ArgumentOutOfRange("Endorsements", "Endorsements are required."))
  {
    if createParameters.None? then
      Failure(ArgumentNull("createParameters", "The create parameters are is missing. Please check that the argument is not null."))
    else if createParameters.value.endorsements.None? then
      Failure(ArgumentOutOfRange("Endorsements", "Endorsements are required."))
    else Success(createParameters.value)
  }

  const BlankAccountUpdateMessage := "The Account Updates contains no update properties, it is blank."
  const BlankFileUpdateMessage := "The File Update parameters contain no update properties, it is blank."

  /** No update field of an account update is set. */
  predicate BlankAccountUpdate(p: E.UpdateAccountParams) {
    && p.endorsements.None? && p.sendThresholdCreateRecord.None? && p.receiveThresholdCreateRecord.None?
    && p.expiration.None? && p.autoRenewPeriod.None?
  }

  /** No update field of a file update is set. */
  predicate BlankFileUpdate(p: E.UpdateFileParams) {
    p.endorsements.None? && p.expiration.None? && p.contents.None?
  }

  /** Account update parameters: checked for null, then for a null account, then
      for having no update at all. */
  function UpdateAccountParameters(updateParameters: Option<E.UpdateAccountParams>): (r: Result<E.UpdateAccountParams, ArgumentError>)
    ensures r.Success? <==> updateParameters.Some? && updateParameters.value.account.Some? && !BlankAccountUpdate(updateParameters.value)
    ensures r.Success? ==> r.value == updateParameters.value
    ensures updateParameters.None? ==> r.Failure? && r.error.ArgumentNull? && r.error.paramName == "updateParameters"
    ensures updateParameters.Some? && updateParameters.value.account.None? ==>
      r.Failure? && r.error.ArgumentNull? && r.error.paramName == "Account"
    ensures updateParameters.Some? && updateParameters.value.account.Some? && BlankAccountUpdate(updateParameters.value) ==>
      r == Failure(Argument(BlankAccountUpdateMessage, "updateParameters"))
  {
    if updateParameters.None? then
      Failure(ArgumentNull("updateParameters", "Account Update Parameters argument is missing. Please check that it is not null."))
    else if updateParameters.value.account.None? then
      Failure(ArgumentNull("Account", "Account is is missing. Please check that it is not null."))
    else if BlankAccountUpdate(updateParameters.value) then
      Failure(Argument(BlankAccountUpdateMessage, "updateParameters"))
    else Success(updateParameters.value)
  }

  /** The account update guard as the source writes it: the blank-update
      exception is built with its message and parameter name swapped. */
  function UpdateAccountParametersAsWritten(updateParameters: Option<E.UpdateAccountParams>): (r: Result<E.UpdateAccountParams, ArgumentError>)
    ensures r.Success? <==> UpdateAccountParameters(updateParameters).Success?
  {
    if updateParameters.Some? && updateParameters.value.account.Some? && BlankAccountUpdate(updateParameters.value) then
      Failure(Argument("updateParameters", BlankAccountUpdateMessage))
    else UpdateAccountParameters(updateParameters)
  }

  /** A blank account update: as written, the exception names a sentence as its
      parameter and gives the parameter's name as its message. */
  lemma BlankAccountUpdateNamesWrongParameter(account: E.Address)
    ensures var p := Some(E.UpdateAccountParams(Some(account), None, None, None, None, None));
      && UpdateAccountParametersAsWritten(p).error.paramName == BlankAccountUpdateMessage
      && UpdateAccountParametersAsWritten(p).error.message == "updateParameters"
      && UpdateAccountParameters(p).error.paramName == "updateParameters"
  {
  }

  /** File update parameters: checked for null, then for a null file, then for
      having no update at all. */
  function UpdateFileParameters(updateParameters: Option<E.UpdateFileParams>): (r: Result<E.UpdateFileParams, ArgumentError>)
    ensures r.Success? <==> updateParameters.Some? && updateParameters.value.file.Some? && !BlankFileUpdate(updateParameters.value)
    ensures r.Success? ==> r.value == updateParameters.value
    ensures updateParameters.None? ==> r.Failure? && r.error.ArgumentNull? && r.error.paramName == "updateParameters"
    ensures updateParameters.Some? && updateParameters.value.file.None? ==>
      r.Failure? && r.error.ArgumentNull? && r.error.paramName == "File"
    ensures updateParameters.Some? && updateParameters.value.file.Some? && BlankFileUpdate(updateParameters.value) ==>
      r == Failure(Argument(BlankFileUpdateMessage, "updateParameters"))
  {
    if updateParameters.None? then
      Failure(ArgumentNull("updateParameters", "File Update Parameters argument is missing. Please check that it is not null."))
    else if updateParameters.value.file.None? then
      Failure(ArgumentNull("File", "File identifier is is missing. Please check that it is not null."))
    else if BlankFileUpdate(updateParameters.value) then
      Failure(Argument(BlankFileUpdateMessage, "updateParameters"))
    else Success(updateParameters.value)
  }

  /** The file update guard as the source writes it, with the same swap. */
  function UpdateFileParametersAsWritten(updateParameters: Option<E.UpdateFileParams>): (r: Result<E.UpdateFileParams, ArgumentError>)
    ensures r.Success? <==> UpdateFileParameters(updateParameters).Success?
  {
    if updateParameters.Some? && updateParameters.value.file.Some? && BlankFileUpdate(updateParameters.value) then
      Failure(Argument("updateParameters", BlankFileUpdateMessage))
    else UpdateFileParameters(updateParameters)
  }

  lemma BlankFileUpdateNamesWrongParameter(file: E.Address)
    ensures var p := Some(E.UpdateFileParams(Some(file), None, None, None));
      && UpdateFileParametersAsWritten(p).error.paramName == BlankFileUpdateMessage
      && UpdateFileParametersAsWritten(p).error.message == "updateParameters"
      && UpdateFileParameters(p).error.paramName == "updateParameters"
  {
  }

  /** Appending needs only the argument and its file. */
  function AppendParameters(appendParameters: Option<E.AppendFileParams>): (r: Result<E.AppendFileParams, ArgumentError>)
    ensures r.Success? <==> appendParameters.Some? && appendParameters.value.file.Some?
    ensures r.Success? ==> r.value == appendParameters.value
    ensures appendParameters.None? ==> r.Failure? && r.error.ArgumentNull? && r.error.paramName == "appendParameters"
    ensures appendParameters.Some? && appendParameters.value.file.None? ==>
      r.Failure? && r.error.ArgumentNull? && r.error.paramName == "File"
  {
    if appendParameters.None? then
      Failure(ArgumentNull("appendParameters", "File Update Parameters argument is missing. Please check that it is not null."))
    else if appendParameters.value.file.None? then
      Failure(ArgumentNull("File", "File identifier is is missing. Please check that it is not null."))
    else Success(appendParameters.value)
  }
}
