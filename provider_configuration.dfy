/**
 * The validators and small mappings of the provider configuration resource:
 * the AWS credential rules of Create and Update and how Read shows the AWS
 * block again, the `environments` mapping in both directions, and the
 * CustomizeDiff check that at most one provider block changes.
 *
 * Optional string attributes read as the empty string when unset, so
 * `GetOk` on one of them is "not empty".
 */
module ProviderConfiguration {
  import opened Wrappers

  // ---------------------------------------------------------------------------
  // AWS credentials
  // ---------------------------------------------------------------------------

  /** The `aws` block as configured. */
  datatype AwsBlock = AwsBlock(
    accountType: string, credentialsType: string,
    accessKey: string, secretKey: string,
    trustedEntityType: string, roleArn: string, externalId: string)

  /** The AWS part of the create or update options; `None` is a field left unset. */
  datatype AwsOptions = AwsOptions(
    accountType: string, credentialsType: string,
    accessKey: Option<string>, secretKey: Option<string>,
    trustedEntityType: Option<string>, roleArn: Option<string>, externalId: Option<string>)

  datatype AwsError =
    | KeysOnlyTogether
    | TrustedEntityTypeRequired
    | RoleArnRequired
    | ExternalIdRequired
    | UnknownCredentialsType(credentialsType: string)
    | KeysRequired

  const RoleDelegation := "role_delegation"
  const AccessKeys := "access_keys"
  const AwsAccount := "aws_account"

  /** The credential rules, stated independently of the order Go checks them in. */
  predicate AwsCredentialsWellFormed(b: AwsBlock) {
    && (b.accessKey == "" <==> b.secretKey == "")
    && (b.credentialsType == RoleDelegation || b.credentialsType == AccessKeys)
    && (b.credentialsType == RoleDelegation ==>
          && b.trustedEntityType != ""
          && b.roleArn != ""
          && (b.trustedEntityType == AwsAccount ==> b.externalId != ""))
    && (b.credentialsType == AccessKeys ==> b.accessKey != "" && b.secretKey != "")
  }

  /** The AWS branch of Create and Update: fill the options and reject the
      first rule the block breaks, in the order the code checks them. */
  function AwsCredentialOptions(b: AwsBlock): (r: Result<AwsOptions, AwsError>)
    ensures r.Success? <==> AwsCredentialsWellFormed(b)
    ensures (b.accessKey == "") != (b.secretKey == "") ==> r == Failure(KeysOnlyTogether)
    ensures (b.accessKey == "") == (b.secretKey == "") && b.credentialsType != RoleDelegation && b.credentialsType != AccessKeys
            ==> r == Failure(UnknownCredentialsType(b.credentialsType))
    ensures (b.accessKey == "") == (b.secretKey == "") && b.credentialsType == RoleDelegation && b.trustedEntityType == ""
            ==> r == Failure(TrustedEntityTypeRequired)
    ensures ((b.accessKey == "") == (b.secretKey == "") && b.credentialsType == RoleDelegation && b.trustedEntityType != ""
             && b.roleArn == "") ==> r == Failure(RoleArnRequired)
    ensures ((b.accessKey == "") == (b.secretKey == "") && b.credentialsType == RoleDelegation && b.trustedEntityType != ""
             && b.roleArn != "" && b.trustedEntityType == AwsAccount && b.externalId == "") ==> r == Failure(ExternalIdRequired)
    ensures (b.accessKey == "") == (b.secretKey == "") && b.credentialsType == AccessKeys && b.accessKey == ""
            ==> r == Failure(KeysRequired)
    ensures r.Success? ==>
      && r.value.accountType == b.accountType && r.value.credentialsType == b.credentialsType
      && (r.value.accessKey.Some? <==> b.accessKey != "")
      && (r.value.accessKey.Some? ==> r.value.accessKey.value == b.accessKey && r.value.secretKey == Some(b.secretKey))
      && (r.value.secretKey.Some? <==> b.secretKey != "")
      && (r.value.trustedEntityType.Some? <==> b.credentialsType == RoleDelegation)
      && (r.value.trustedEntityType.Some? ==>
            r.value.trustedEntityType.value == b.trustedEntityType && r.value.roleArn == Some(b.roleArn))
      && (r.value.roleArn.Some? <==> b.credentialsType == RoleDelegation)
      && (r.value.externalId.Some? <==> b.credentialsType == RoleDelegation && b.externalId != "")
      && (r.value.externalId.Some? ==> r.value.externalId.value == b.externalId)
  {
    var hasAccessKey := b.accessKey != "";
    var hasSecretKey := b.secretKey != "";
    var keys := if hasAccessKey && hasSecretKey then AwsOptions(b.accountType, b.credentialsType, Some(b.accessKey), Some(b.secretKey), None, None, None)
                else AwsOptions(b.accountType, b.credentialsType, None, None, None, None, None);
    if !(hasAccessKey && hasSecretKey) && (hasAccessKey || hasSecretKey) then Failure(KeysOnlyTogether)
    else if b.credentialsType == RoleDelegation then
      var hasExternalId := b.externalId != "";
      var options := keys.(trustedEntityType := Some(b.trustedEntityType), roleArn := Some(b.roleArn),
                           externalId := if hasExternalId then Some(b.externalId) else None);
      if b.trustedEntityType == "" then Failure(TrustedEntityTypeRequired)
      else if b.roleArn == "" then Failure(RoleArnRequired)
      else if b.trustedEntityType == AwsAccount && !hasExternalId then Failure(ExternalIdRequired)
      else Success(options)
    else if b.credentialsType != AccessKeys then Failure(UnknownCredentialsType(b.credentialsType))
    else if !hasAccessKey || !hasSecretKey then Failure(KeysRequired)
    else Success(keys)
  }

  /** The AWS fields of a configuration as the remote returns them: the
      secret key is never returned, unset fields come back empty. */
  datatype AwsRemote = AwsRemote(
    accountType: string, credentialsType: string, accessKey: string,
    trustedEntityType: string, roleArn: string, externalId: string)

  function Unwrap(o: Option<string>): string {
    if o.Some? then o.value else ""
  }

  /** What the remote holds after accepting `o`. */
  function Stored(o: AwsOptions): AwsRemote {
    AwsRemote(o.accountType, o.credentialsType, Unwrap(o.accessKey),
              Unwrap(o.trustedEntityType), Unwrap(o.roleArn), Unwrap(o.externalId))
  }

  /** The `aws` branch of Read: the secret key comes from prior state, the
      role fields are shown only when a trusted entity type is set. */
  function ReadAws(remote: AwsRemote, stateSecretKey: string): (b: AwsBlock)
    ensures b.accountType == remote.accountType && b.credentialsType == remote.credentialsType
    ensures b.accessKey == remote.accessKey && b.secretKey == stateSecretKey
    ensures remote.trustedEntityType == "" ==> b.trustedEntityType == "" && b.roleArn == "" && b.externalId == ""
    ensures remote.trustedEntityType != "" ==>
      b.trustedEntityType == remote.trustedEntityType && b.roleArn == remote.roleArn && b.externalId == remote.externalId
  {
    var roleFields := remote.trustedEntityType != "";
    AwsBlock(remote.accountType, remote.credentialsType,
             if remote.accessKey != "" then remote.accessKey else "",
             if stateSecretKey != "" then stateSecretKey else "",
             if roleFields then remote.trustedEntityType else "",
             if roleFields then remote.roleArn else "",
             if roleFields then remote.externalId else "")
  }

  /** An accepted block reads back unchanged, provided it sets no role
      fields for the `access_keys` type (those are not sent, so they would
      read back empty). */
  lemma AwsReadBack(b: AwsBlock)
    requires AwsCredentialsWellFormed(b)
    requires b.credentialsType != RoleDelegation ==> b.trustedEntityType == "" && b.roleArn == "" && b.externalId == ""
    ensures AwsCredentialOptions(b).Success?
    ensures ReadAws(Stored(AwsCredentialOptions(b).value), b.secretKey) == b
  {
  }

  // ---------------------------------------------------------------------------
  // Environments
  // ---------------------------------------------------------------------------

  datatype Environment = Environment(id: string)

  /** How a configuration is shared: `isShared` and the environment list of
      the options, `None` when the field is left unset. */
  datatype Sharing = Sharing(isShared: Option<bool>, environments: Option<seq<Environment>>)

  /** The single entry `"*"` means "shared with every environment". */
  predicate AllEnvironments(ids: seq<string>) {
    |ids| == 1 && ids[0] == "*"
  }

  function Wrap(ids: seq<string>): (envs: seq<Environment>)
    ensures |envs| == |ids| && forall i | 0 <= i < |ids| :: envs[i].id == ids[i]
  {
    seq(|ids|, i requires 0 <= i < |ids| => Environment(ids[i]))
  }

  /** The loop that wraps every ID into an environment. */
  method WrapEnvironments(ids: seq<string>) returns (envs: seq<Environment>)
    ensures envs == Wrap(ids)
  {
    envs := [];
    for i := 0 to |ids|
      invariant envs == Wrap(ids[..i])
    {
      envs := envs + [Environment(ids[i])];
    }
    assert ids[..|ids|] == ids;
  }

  /** The environments of Create: `["*"]` shares, a non-empty list names the
      environments, an empty one leaves both fields unset. */
  method CreateSharing(ids: seq<string>) returns (s: Sharing)
    ensures AllEnvironments(ids) ==> s == Sharing(Some(true), None)
    ensures ids == [] ==> s == Sharing(None, None)
    ensures !AllEnvironments(ids) && ids != [] ==> s == Sharing(None, Some(Wrap(ids)))
  {
    s := Sharing(None, None);
    if |ids| != 0 {
      if |ids| == 1 && ids[0] == "*" {
        s := s.(isShared := Some(true));
      } else if |ids| > 0 {
        var envs := WrapEnvironments(ids);
        s := s.(environments := Some(envs));
      }
    }
  }

  /** The environments of Update: both fields are always sent; `["*"]`
      shares with an empty list, anything else is not shared. */
  method UpdateSharing(ids: seq<string>) returns (s: Sharing)
    ensures AllEnvironments(ids) ==> s == Sharing(Some(true), Some([]))
    ensures !AllEnvironments(ids) ==> s == Sharing(Some(false), Some(Wrap(ids)))
  {
    if |ids| != 0 {
      if |ids| == 1 && ids[0] == "*" {
        s := Sharing(Some(true), Some([]));
      } else {
        var envs := WrapEnvironments(ids);
        s := Sharing(Some(false), Some(envs));
      }
    } else {
      s := Sharing(Some(false), Some([]));
    }
  }

  /** The environments branch of Read: a shared configuration shows `["*"]`,
      any other shows the IDs of its environments, in order. */
  method ReadEnvironments(isShared: bool, environments: seq<Environment>) returns (ids: seq<string>)
    ensures isShared ==> ids == ["*"]
    ensures !isShared ==> Wrap(ids) == environments
  {
    if isShared {
      ids := ["*"];
    } else {
      ids := [];
      for i := 0 to |environments|
        invariant |ids| == i && forall j | 0 <= j < i :: ids[j] == environments[j].id
      {
        ids := ids + [environments[i].id];
      }
    }
  }

  /** What the remote holds after applying `s`; an unset field keeps the
      default, not shared and no environments. */
  function Applied(s: Sharing): (bool, seq<Environment>) {
    (s.isShared == Some(true), if s.environments.Some? then s.environments.value else [])
  }

  /** The IDs Read shows for what the remote holds. */
  function Shown(held: (bool, seq<Environment>)): seq<string> {
    if held.0 then ["*"] else seq(|held.1|, i requires 0 <= i < |held.1| => held.1[i].id)
  }

  /** Whatever list Create or Update sends, Read shows that same list again. */
  lemma EnvironmentsRoundTrip(ids: seq<string>, s: Sharing)
    requires
      || (AllEnvironments(ids) && (s == Sharing(Some(true), None) || s == Sharing(Some(true), Some([]))))
      || (ids == [] && (s == Sharing(None, None) || s == Sharing(Some(false), Some([]))))
      || (!AllEnvironments(ids) && (s == Sharing(None, Some(Wrap(ids))) || s == Sharing(Some(false), Some(Wrap(ids)))))
    ensures Shown(Applied(s)) == ids
  {
    if AllEnvironments(ids) {
      assert ids == ["*"];
    }
  }

  // ---------------------------------------------------------------------------
  // CustomizeDiff: the provider type cannot change
  // ---------------------------------------------------------------------------

  const ProviderBlocks: seq<string> := ["aws", "google", "azurerm", "scalr", "custom"]

  const ProviderTypeChange := "Provider type can't be changed."

  /** How many of `blocks` are in `changed`. */
  function CountChanged(blocks: seq<string>, changed: set<string>): nat {
    if blocks == [] then 0
    else CountChanged(blocks[..|blocks| - 1], changed) + (if blocks[|blocks| - 1] in changed then 1 else 0)
  }

  /** The CustomizeDiff function: count the provider blocks with a change
      and refuse more than one. `changed` is the set of attributes for which
      the plan has a change. */
  method CheckProviderChange(changed: set<string>) returns (err: Option<string>)
    ensures err.Some? <==> CountChanged(ProviderBlocks, changed) > 1
    ensures err.Some? ==> err.value == ProviderTypeChange
  {
    var changedProviderNames := 0;
    for i := 0 to |ProviderBlocks|
      invariant changedProviderNames == CountChanged(ProviderBlocks[..i], changed)
    {
      assert ProviderBlocks[..i + 1][..i] == ProviderBlocks[..i];
      if ProviderBlocks[i] in changed {
        changedProviderNames := changedProviderNames + 1;
      }
    }
    assert ProviderBlocks[..|ProviderBlocks|] == ProviderBlocks;
    if changedProviderNames > 1 {
      return Some(ProviderTypeChange);
    }
    return None;
  }

  /** Over blocks without repeats, more than one is counted exactly when two
      different blocks both changed. */
  lemma {:induction false} CountChangedMoreThanOne(blocks: seq<string>, changed: set<string>)
    requires forall i, j | 0 <= i < j < |blocks| :: blocks[i] != blocks[j]
    ensures CountChanged(blocks, changed) > 1 <==>
      exists i, j | 0 <= i < j < |blocks| :: blocks[i] in changed && blocks[j] in changed
    ensures CountChanged(blocks, changed) == 0 <==> forall i | 0 <= i < |blocks| :: blocks[i] !in changed
  {
    if blocks != [] {
      var prefix := blocks[..|blocks| - 1];
      CountChangedMoreThanOne(prefix, changed);
      assert forall i | 0 <= i < |prefix| :: prefix[i] == blocks[i];
      var last := |blocks| - 1;
      if CountChanged(blocks, changed) > 1 && CountChanged(prefix, changed) <= 1 {
        var i :| 0 <= i < |prefix| && prefix[i] in changed;
        assert blocks[i] in changed && blocks[last] in changed;
      }
      if exists i, j | 0 <= i < j < |blocks| :: blocks[i] in changed && blocks[j] in changed {
        var i, j :| 0 <= i < j < |blocks| && blocks[i] in changed && blocks[j] in changed;
        if j < last {
          assert prefix[i] in changed && prefix[j] in changed;
        } else {
          assert prefix[i] in changed;
        }
      }
    }
  }

  /** The check refuses a plan exactly when two different provider blocks
      change, as switching from `custom` to `aws` does. */
  lemma ProviderChangeRefusedIffTwoBlocks(changed: set<string>)
    ensures CountChanged(ProviderBlocks, changed) > 1 <==>
      exists a, b | a in ProviderBlocks && b in ProviderBlocks :: a != b && a in changed && b in changed
  {
    CountChangedMoreThanOne(ProviderBlocks, changed);
    if exists a, b | a in ProviderBlocks && b in ProviderBlocks :: a != b && a in changed && b in changed {
      var a, b :| a in ProviderBlocks && b in ProviderBlocks && a != b && a in changed && b in changed;
      var i :| 0 <= i < |ProviderBlocks| && ProviderBlocks[i] == a;
      var j :| 0 <= j < |ProviderBlocks| && ProviderBlocks[j] == b;
      if i < j {
        assert ProviderBlocks[i] in changed && ProviderBlocks[j] in changed;
      } else {
        assert ProviderBlocks[j] in changed && ProviderBlocks[i] in changed;
      }
    }
  }

  /** Switching the `custom` block for an `aws` block is refused. */
  lemma CustomToAwsRefused()
    ensures CountChanged(ProviderBlocks, {"custom", "aws"}) > 1
  {
    ProviderChangeRefusedIffTwoBlocks({"custom", "aws"});
    assert "custom" in ProviderBlocks && "aws" in ProviderBlocks;
  }
}
